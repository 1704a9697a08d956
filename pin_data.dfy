/**
 * get_all_pin_data of Hobot.GPIO (gpio_pin_data.py): read the board id and
 * the SoC name, pick the board list and the board, point each chip entry at
 * the chip directory the kernel created, and index the pins by each of the
 * five numbering modes.
 *
 * The three sysfs reads are inputs: the text of the board_id file, the
 * text of the soc_name file, and the directory tree below
 * /sys/devices/platform/ as a map from a directory to its entries in
 * listing order (a directory exists exactly when it is a key).
 */
module PinData {
  import opened Wrappers
  import opened PinTables
  import opened HeaderOrder

  // ---------------------------------------------------------------- errors

  /** What get_all_pin_data raises: int() refusing the board id, or the board missing from its list. */
  datatype LoadError = ValueError(literal: string) | Unsupported(message: string)

  const NotSupportedMessage: string := "Board type is not support"

  // ---------------------------------------------------------------- Python text helpers

  /** The characters Python's `str.isspace` accepts, which `strip()` and `int()` remove. */
  predicate IsPySpace(c: char) {
    ('\t' <= c <= '\r') || ('\U{001C}' <= c <= ' ') || c == '\U{0085}' || c == '\U{00A0}'
    || c == '\U{1680}' || ('\U{2000}' <= c <= '\U{200A}') || c == '\U{2028}' || c == '\U{2029}'
    || c == '\U{202F}' || c == '\U{205F}' || c == '\U{3000}'
  }

  /** Number of leading white-space characters. */
  function LeadingSpace(s: string): (n: nat)
    ensures n <= |s|
    ensures forall k | 0 <= k < n :: IsPySpace(s[k])
    ensures n == |s| || !IsPySpace(s[n])
    decreases |s|
  {
    if s != [] && IsPySpace(s[0]) then 1 + LeadingSpace(s[1..]) else 0
  }

  /** `s.rstrip()`: the text without its trailing white space. */
  function TrimEnd(s: string): (r: string)
    ensures |r| <= |s| && r == s[..|r|]
    ensures forall k | |r| <= k < |s| :: IsPySpace(s[k])
    ensures r == [] || !IsPySpace(r[|r| - 1])
    decreases |s|
  {
    if s != [] && IsPySpace(s[|s| - 1]) then TrimEnd(s[..|s| - 1]) else s
  }

  /** `s.strip()`. */
  function Strip(s: string): (r: string)
  {
    var t := TrimEnd(s);
    t[LeadingSpace(t)..]
  }

  /** `str.lower()` on one character; only the ASCII letters are mapped. */
  function LowerChar(c: char): char {
    if 'A' <= c <= 'Z' then (c as int - 'A' as int + 'a' as int) as char else c
  }

  function Lower(s: string): string {
    seq(|s|, k requires 0 <= k < |s| => LowerChar(s[k]))
  }

  /** `sub` occurs in `s` at position i. */
  predicate OccursAt(s: string, sub: string, i: nat) {
    i + |sub| <= |s| && s[i..i + |sub|] == sub
  }

  /** Python's `sub in s` on strings. */
  predicate Contains(s: string, sub: string) {
    exists i | 0 <= i <= |s| :: OccursAt(s, sub, i)
  }

  predicate StartsWith(s: string, prefix: string) {
    |prefix| <= |s| && s[..|prefix|] == prefix
  }

  // ---------------------------------------------------------------- board id

  predicate IsHexDigit(c: char) {
    '0' <= c <= '9' || 'a' <= c <= 'f' || 'A' <= c <= 'F'
  }

  function HexDigitValue(c: char): (v: nat)
    requires IsHexDigit(c)
    ensures v < 16 && "0123456789abcdef"[v] == LowerChar(c)
  {
    if '0' <= c <= '9' then c as int - '0' as int
    else if 'a' <= c <= 'f' then c as int - 'a' as int + 10
    else c as int - 'A' as int + 10
  }

  /** The value of a run of hexadecimal digits, most significant first. */
  function HexValue(ds: string): (v: nat)
    requires forall k | 0 <= k < |ds| :: IsHexDigit(ds[k])
    decreases |ds|
  {
    if ds == [] then 0 else 16 * HexValue(ds[..|ds| - 1]) + HexDigitValue(ds[|ds| - 1])
  }

  /** `iboard_id & 0xfff`: the low twelve bits of the id. */
  function Mask(id: int): (r: int)
    ensures 0 <= r < 0x1000
    ensures (id - r) % 0x1000 == 0
  {
    id % 0x1000
  }

  /**
   * The board id read from the board_id file's text: `int("0x" + text, 16)`
   * masked to twelve bits.  int() strips the white space around the whole
   * literal, so trailing white space in the file is ignored while leading
   * white space lands between "0x" and the digits and is refused.
   */
  function BoardIdOf(text: string): (r: Result<int, LoadError>)
    ensures r.Success? ==> 0 <= r.value < 0x1000
  {
    var ds := TrimEnd(text);
    if ds != [] && forall k | 0 <= k < |ds| :: IsHexDigit(ds[k]) then Success(Mask(HexValue(ds)))
    else Failure(ValueError("0x" + text))
  }

  // ---------------------------------------------------------------- board list and board

  /** `'x5' in soc_name.lower()`. */
  predicate IsX5(socName: string) {
    Contains(Lower(socName), "x5")
  }

  /** The board list chosen by the text of the soc_name file. */
  function BoardList(socText: string): (list: seq<BoardData>)
    ensures IsX5(socText) ==> list == AllBoardDataX5
    ensures !IsX5(socText) ==> list == AllBoardDataX3
  {
    StripKeepsChoice(socText);
    if IsX5(Strip(socText)) then AllBoardDataX5 else AllBoardDataX3
  }

  /** Index of the first entry of the list whose board id is `boardId`. */
  function BoardIndex(list: seq<BoardData>, boardId: int): (r: Option<nat>)
    ensures r.Some? ==> r.value < |list| && list[r.value].boardId == boardId
    ensures r.Some? ==> forall j | 0 <= j < r.value :: list[j].boardId != boardId
    ensures r.None? <==> forall j | 0 <= j < |list| :: list[j].boardId != boardId
    decreases |list|
  {
    if list == [] then None
    else if list[0].boardId == boardId then Some(0)
    else match BoardIndex(list[1..], boardId)
      case None => None
      case Some(i) => Some(i + 1)
  }

  /** The for/break search of the board list; a missing board raises "Board type is not support". */
  method FindBoard(boardList: seq<BoardData>, boardId: int) returns (r: Result<BoardData, LoadError>)
    ensures BoardIndex(boardList, boardId).Some? ==> r == Success(boardList[BoardIndex(boardList, boardId).value])
    ensures BoardIndex(boardList, boardId).None? ==> r == Failure(Unsupported(NotSupportedMessage))
  {
    var res := false;
    var found := BoardData("", [], 0);
    for n := 0 to |boardList|
      invariant !res
      invariant forall j | 0 <= j < n :: boardList[j].boardId != boardId
    {
      if boardList[n].boardId == boardId {
        found := boardList[n];
        res := true;
        assert BoardIndex(boardList, boardId) == Some(n);
        break;
      }
    }
    if !res {
      return Failure(Unsupported(NotSupportedMessage));
    }
    r := Success(found);
  }

  // ---------------------------------------------------------------- chip directories

  const SysfsPlatformPath: string := "/sys/devices/platform/"

  /** The directory tree as the rewrite sees it: each existing directory and its entries in listing order. */
  type Listing = map<string, seq<string>>

  /** The directory the kernel creates a chip's nodes in, e.g. `<platform>/soc/a6003000.gpio/gpio`. */
  function PlatformDir(name: string, sub: string): string {
    SysfsPlatformPath + name + sub
  }

  /** Index of the first entry that starts with `prefix`. */
  function FirstWithPrefix(entries: seq<string>, prefix: string): (r: Option<nat>)
    ensures r.Some? ==> r.value < |entries| && StartsWith(entries[r.value], prefix)
    ensures r.Some? ==> forall j | 0 <= j < r.value :: !StartsWith(entries[j], prefix)
    ensures r.None? <==> forall j | 0 <= j < |entries| :: !StartsWith(entries[j], prefix)
    decreases |entries|
  {
    if entries == [] then None
    else if StartsWith(entries[0], prefix) then Some(0)
    else match FirstWithPrefix(entries[1..], prefix)
      case None => None
      case Some(i) => Some(i + 1)
  }

  /**
   * Where a chip entry named `name` is pointed: the first entry of
   * `<platform>/<name><sub>` that starts with `prefix`, appended to that
   * directory; None when the directory is missing or has no such entry.
   */
  function ChipPath(name: string, sub: string, prefix: string, fs: Listing): (r: Option<string>)
    ensures r.Some? <==> PlatformDir(name, sub) in fs && exists f | f in fs[PlatformDir(name, sub)] :: StartsWith(f, prefix)
    ensures r.Some? ==> exists i | 0 <= i < |fs[PlatformDir(name, sub)]| ::
      && StartsWith(fs[PlatformDir(name, sub)][i], prefix)
      && (forall j | 0 <= j < i :: !StartsWith(fs[PlatformDir(name, sub)][j], prefix))
      && r.value == PlatformDir(name, sub) + "/" + fs[PlatformDir(name, sub)][i]
  {
    var dir := PlatformDir(name, sub);
    if dir !in fs then None
    else match FirstWithPrefix(fs[dir], prefix)
      case None => None
      case Some(i) => Some(dir + "/" + fs[dir][i])
  }

  /** One row after the GPIO pass: only column 0 can change. */
  function GpioRewrite(x: PinRow, fs: Listing): (r: PinRow)
    ensures r.(gpioChipDir := x.gpioChipDir) == x
    ensures r.gpioChipDir.Some? <==> x.gpioChipDir.Some?
    ensures r.gpioChipDir != x.gpioChipDir ==> r.gpioChipDir == ChipPath(x.gpioChipDir.value, "/gpio", "gpiochip", fs)
    ensures x.gpioChipDir.Some? && ChipPath(x.gpioChipDir.value, "/gpio", "gpiochip", fs).Some? ==>
      r.gpioChipDir == ChipPath(x.gpioChipDir.value, "/gpio", "gpiochip", fs)
    ensures x.gpioChipDir.Some? && ChipPath(x.gpioChipDir.value, "/gpio", "gpiochip", fs).None? ==> r == x
  {
    if x.gpioChipDir.None? then x
    else match ChipPath(x.gpioChipDir.value, "/gpio", "gpiochip", fs)
      case None => x
      case Some(p) => x.(gpioChipDir := Some(p))
  }

  /** One row after the PWM pass: only column 6 can change. */
  function PwmRewrite(x: PinRow, fs: Listing): (r: PinRow)
    ensures r.(pwmChipDir := x.pwmChipDir) == x
    ensures r.pwmChipDir.Some? <==> x.pwmChipDir.Some?
    ensures r.pwmChipDir != x.pwmChipDir ==> r.pwmChipDir == ChipPath(x.pwmChipDir.value, "/pwm", "pwmchip", fs)
    ensures x.pwmChipDir.Some? && ChipPath(x.pwmChipDir.value, "/pwm", "pwmchip", fs).Some? ==>
      r.pwmChipDir == ChipPath(x.pwmChipDir.value, "/pwm", "pwmchip", fs)
    ensures x.pwmChipDir.Some? && ChipPath(x.pwmChipDir.value, "/pwm", "pwmchip", fs).None? ==> r == x
  {
    if x.pwmChipDir.None? then x
    else match ChipPath(x.pwmChipDir.value, "/pwm", "pwmchip", fs)
      case None => x
      case Some(p) => x.(pwmChipDir := Some(p))
  }

  /** The rows after both passes: the pin numbers and names are untouched. */
  function Rewritten(rows: seq<PinRow>, fs: Listing): (r: seq<PinRow>)
    ensures |r| == |rows|
    ensures forall i | 0 <= i < |rows| :: r[i].(gpioChipDir := rows[i].gpioChipDir, pwmChipDir := rows[i].pwmChipDir) == rows[i]
  {
    seq(|rows|, i requires 0 <= i < |rows| => PwmRewrite(GpioRewrite(rows[i], fs), fs))
  }

  /** The "Check GPIO chip dir" pass, in place on the copied rows. */
  method RewriteGpioDirs(pinData: array<PinRow>, fs: Listing)
    modifies pinData
    ensures forall n | 0 <= n < pinData.Length :: pinData[n] == GpioRewrite(old(pinData[n]), fs)
  {
    for n := 0 to pinData.Length
      invariant forall k | 0 <= k < n :: pinData[k] == GpioRewrite(old(pinData[k]), fs)
      invariant forall k | n <= k < pinData.Length :: pinData[k] == old(pinData[k])
    {
      var x := pinData[n];
      if x.gpioChipDir.None? {
        continue;
      }
      var gpioChipDir := SysfsPlatformPath + x.gpioChipDir.value;
      gpioChipDir := gpioChipDir + "/gpio";
      if gpioChipDir !in fs {
        continue;
      }
      var entries := fs[gpioChipDir];
      for i := 0 to |entries|
        invariant pinData[n] == x
        invariant forall j | 0 <= j < i :: !StartsWith(entries[j], "gpiochip")
      {
        if !StartsWith(entries[i], "gpiochip") {
          continue;
        }
        assert FirstWithPrefix(entries, "gpiochip") == Some(i);
        gpioChipDir := gpioChipDir + "/" + entries[i];
        pinData[n] := x.(gpioChipDir := Some(gpioChipDir));
        break;
      }
    }
  }

  /** The "Check PWM chip dir" pass, in place on the copied rows. */
  method RewritePwmDirs(pinData: array<PinRow>, fs: Listing)
    modifies pinData
    ensures forall n | 0 <= n < pinData.Length :: pinData[n] == PwmRewrite(old(pinData[n]), fs)
  {
    for n := 0 to pinData.Length
      invariant forall k | 0 <= k < n :: pinData[k] == PwmRewrite(old(pinData[k]), fs)
      invariant forall k | n <= k < pinData.Length :: pinData[k] == old(pinData[k])
    {
      var x := pinData[n];
      if x.pwmChipDir.None? {
        continue;
      }
      var pwmChipDir := SysfsPlatformPath + x.pwmChipDir.value;
      pwmChipDir := pwmChipDir + "/pwm";
      if pwmChipDir !in fs {
        continue;
      }
      var entries := fs[pwmChipDir];
      for i := 0 to |entries|
        invariant pinData[n] == x
        invariant forall j | 0 <= j < i :: !StartsWith(entries[j], "pwmchip")
      {
        if !StartsWith(entries[i], "pwmchip") {
          continue;
        }
        assert FirstWithPrefix(entries, "pwmchip") == Some(i);
        pwmChipDir := pwmChipDir + "/" + entries[i];
        pinData[n] := x.(pwmChipDir := Some(pwmChipDir));
        break;
      }
    }
  }

  // ---------------------------------------------------------------- the lookup maps

  /** A key of a lookup map: the number columns give integers, the name columns strings. */
  datatype Key = Num(n: int) | Name(s: string)

  /** `AllInfo`: what a lookup yields for a pin. */
  datatype AllInfo = AllInfo(gpioChipDir: Option<string>, gpioId: int, pwmChipDir: Option<string>, pwmId: Option<int>)

  /** `AllInfo(x[0], x[1], x[6], x[7])`. */
  function Info(x: PinRow): AllInfo {
    AllInfo(x.gpioChipDir, x.linuxGpio, x.pwmChipDir, x.pwmId)
  }

  /** `x[col]` for the key columns 1 to 5. */
  function Column(x: PinRow, col: nat): Key
    requires 1 <= col <= 5
  {
    if col == 1 then Num(x.linuxGpio)
    else if col == 2 then Num(x.board)
    else if col == 3 then Num(x.bcm)
    else if col == 4 then Name(x.cvm)
    else Name(x.soc)
  }

  /**
   * `sort_data(col, rows)`: a dict comprehension, so a later row overwrites
   * an earlier one with the same key and no pin can add two entries.
   */
  function SortData(col: nat, rows: seq<PinRow>): (m: map<Key, AllInfo>)
    requires 1 <= col <= 5
    ensures |m| <= |rows|
    decreases |rows|
  {
    if rows == [] then map[]
    else SortData(col, rows[..|rows| - 1])[Column(rows[|rows| - 1], col) := Info(rows[|rows| - 1])]
  }

  /** `all_pin_data`: one map per numbering mode, keyed by that mode's column. */
  function AllPinData(rows: seq<PinRow>): map<string, map<Key, AllInfo>> {
    map[
      "BOARD" := SortData(2, rows),
      "BCM" := SortData(3, rows),
      "CVM" := SortData(4, rows),
      "SOC" := SortData(1, rows),
      "TEGRA_SOC" := SortData(5, rows)
    ]
  }

  /**
   * get_all_pin_data: the model name of the board and its lookup maps, or
   * the error it raises.
   */
  method GetAllPinData(boardIdText: string, socNameText: string, fs: Listing)
    returns (r: Result<(string, map<string, map<Key, AllInfo>>), LoadError>)
    ensures BoardIdOf(boardIdText).Failure? ==> r == Failure(ValueError("0x" + boardIdText))
    ensures BoardIdOf(boardIdText).Success? && BoardIndex(BoardList(socNameText), BoardIdOf(boardIdText).value).None?
      ==> r == Failure(Unsupported(NotSupportedMessage))
    ensures BoardIdOf(boardIdText).Success? && BoardIndex(BoardList(socNameText), BoardIdOf(boardIdText).value).Some?
      ==> var board := BoardList(socNameText)[BoardIndex(BoardList(socNameText), BoardIdOf(boardIdText).value).value];
          r == Success((board.boardName, AllPinData(Rewritten(board.pinInfo, fs))))
  {
    var boardId := BoardIdOf(boardIdText);
    if boardId.Failure? {
      return Failure(boardId.error);
    }
    var socName := Strip(socNameText);
    var boardList := if IsX5(socName) then AllBoardDataX5 else AllBoardDataX3;
    var found := FindBoard(boardList, boardId.value);
    if found.Failure? {
      return Failure(found.error);
    }
    var pinData := RewritePaths(found.value.pinInfo, fs);
    r := Success((found.value.boardName, AllPinData(pinData)));
  }

  /**
   * The two rewrite passes of get_all_pin_data over the deep copy of the
   * chosen board's table, so the module-level table itself never changes.
   */
  method RewritePaths(table: seq<PinRow>, fs: Listing) returns (rows: seq<PinRow>)
    ensures rows == Rewritten(table, fs)
  {
    var pinData := new PinRow[|table|](i requires 0 <= i < |table| => table[i]);
    RewriteGpioDirs(pinData, fs);
    RewritePwmDirs(pinData, fs);
    rows := pinData[..];
  }

  // ---------------------------------------------------------------- lemmas

  /** The keys of `sort_data` are exactly the values of the key column. */
  lemma {:induction false} SortDataKeys(col: nat, rows: seq<PinRow>, k: Key)
    requires 1 <= col <= 5
    ensures k in SortData(col, rows) <==> exists i | 0 <= i < |rows| :: Column(rows[i], col) == k
    decreases |rows|
  {
    if rows != [] {
      var init := rows[..|rows| - 1];
      SortDataKeys(col, init, k);
      if exists i | 0 <= i < |init| :: Column(init[i], col) == k {
        var i :| 0 <= i < |init| && Column(init[i], col) == k;
        assert rows[i] == init[i];
      }
      if exists i | 0 <= i < |rows| :: Column(rows[i], col) == k {
        var i :| 0 <= i < |rows| && Column(rows[i], col) == k;
        if i < |init| {
          assert init[i] == rows[i];
        }
      }
    }
  }

  /** A pin whose key no later pin shares is found under that key, with its own data. */
  lemma {:induction false} SortDataLastWins(col: nat, rows: seq<PinRow>, i: nat)
    requires 1 <= col <= 5 && i < |rows|
    requires forall j | i < j < |rows| :: Column(rows[j], col) != Column(rows[i], col)
    ensures Column(rows[i], col) in SortData(col, rows)
    ensures SortData(col, rows)[Column(rows[i], col)] == Info(rows[i])
    decreases |rows|
  {
    if i < |rows| - 1 {
      var init := rows[..|rows| - 1];
      assert init[i] == rows[i];
      SortDataLastWins(col, init, i);
    }
  }

  /** No two pins share a key in this column. */
  predicate DistinctKeys(col: nat, rows: seq<PinRow>)
    requires 1 <= col <= 5
  {
    forall i, j | 0 <= i < j < |rows| :: Column(rows[i], col) != Column(rows[j], col)
  }

  /** With distinct keys every pin gets its own entry: nothing is lost. */
  lemma {:induction false} SortDataSize(col: nat, rows: seq<PinRow>)
    requires 1 <= col <= 5 && DistinctKeys(col, rows)
    ensures |SortData(col, rows)| == |rows|
    decreases |rows|
  {
    if rows != [] {
      var init := rows[..|rows| - 1];
      var last := rows[|rows| - 1];
      assert DistinctKeys(col, init) by {
        forall i, j | 0 <= i < j < |init| ensures Column(init[i], col) != Column(init[j], col) {
          assert init[i] == rows[i] && init[j] == rows[j];
        }
      }
      SortDataSize(col, init);
      SortDataKeys(col, init, Column(last, col));
    }
  }

  /** Two pins sharing a key leave fewer entries than pins: one of them cannot be looked up. */
  lemma {:induction false} SortDataLoses(col: nat, rows: seq<PinRow>, i: nat, j: nat)
    requires 1 <= col <= 5 && i < j < |rows| && Column(rows[i], col) == Column(rows[j], col)
    ensures |SortData(col, rows)| < |rows|
    decreases |rows|
  {
    var init := rows[..|rows| - 1];
    assert init[i] == rows[i];
    if j == |rows| - 1 {
      SortDataKeys(col, init, Column(rows[j], col));
    } else {
      assert init[j] == rows[j];
      SortDataLoses(col, init, i, j);
    }
  }

  /** The rewrite changes only the chip directories, so every map has the same keys before and after it. */
  lemma {:induction false} RewrittenKeepsKeys(col: nat, rows: seq<PinRow>, fs: Listing, k: Key)
    requires 1 <= col <= 5
    ensures k in SortData(col, Rewritten(rows, fs)) <==> k in SortData(col, rows)
  {
    var rs := Rewritten(rows, fs);
    SortDataKeys(col, rows, k);
    SortDataKeys(col, rs, k);
    forall i | 0 <= i < |rows| ensures Column(rs[i], col) == Column(rows[i], col) {
      assert rs[i].(gpioChipDir := rows[i].gpioChipDir, pwmChipDir := rows[i].pwmChipDir) == rows[i];
    }
  }

  /** Lowering works character by character, so it commutes with slicing. */
  lemma LowerSlice(s: string, a: nat, b: nat)
    requires a <= b <= |s|
    ensures Lower(s[a..b]) == Lower(s)[a..b]
  {
  }

  /** "x5" occurs at i exactly when the two characters there are 'x' and '5'. */
  lemma X5At(s: string, i: nat)
    ensures OccursAt(s, "x5", i) <==> i + 2 <= |s| && s[i] == 'x' && s[i + 1] == '5'
  {
    if i + 2 <= |s| && s[i] == 'x' && s[i + 1] == '5' {
      assert s[i..i + 2] == ['x', '5'];
    }
  }

  /** An occurrence inside a slice is an occurrence in the whole string. */
  lemma OccursInSlice(u: string, a: nat, b: nat, i: nat)
    requires a <= b <= |u| && OccursAt(u[a..b], "x5", i)
    ensures OccursAt(u, "x5", a + i)
  {
    X5At(u[a..b], i);
    X5At(u, a + i);
  }

  /** An occurrence of "x5" lies inside the non-space part of the text. */
  lemma OccursInCore(s: string, a: nat, b: nat, i: nat)
    requires a <= b <= |s|
    requires forall k | 0 <= k < a :: IsPySpace(s[k])
    requires forall k | b <= k < |s| :: IsPySpace(s[k])
    requires OccursAt(Lower(s), "x5", i)
    ensures a <= i && i + 2 <= b && OccursAt(Lower(s)[a..b], "x5", i - a)
  {
    X5At(Lower(s), i);
    assert !IsPySpace(s[i]) && !IsPySpace(s[i + 1]);
    X5At(Lower(s)[a..b], i - a);
  }

  /** Leading and trailing white space never decide the SoC choice. */
  lemma StripKeepsChoice(socText: string)
    ensures IsX5(Strip(socText)) <==> IsX5(socText)
  {
    var t := TrimEnd(socText);
    var a := LeadingSpace(t);
    var b := |t|;
    assert Strip(socText) == socText[a..b];
    LowerSlice(socText, a, b);
    var lt := Lower(socText);
    if IsX5(Strip(socText)) {
      var i :| 0 <= i <= |lt[a..b]| && OccursAt(lt[a..b], "x5", i);
      OccursInSlice(lt, a, b, i);
    }
    if IsX5(socText) {
      var i :| 0 <= i <= |lt| && OccursAt(lt, "x5", i);
      assert forall k | 0 <= k < a :: IsPySpace(socText[k]) by {
        forall k | 0 <= k < a ensures IsPySpace(socText[k]) {
          assert t[k] == socText[k];
        }
      }
      OccursInCore(socText, a, b, i);
    }
  }

  /** The converse of BoardIndex's contract: the first entry carrying the id is the one found. */
  lemma BoardIndexAt(list: seq<BoardData>, boardId: int, i: nat)
    requires i < |list| && list[i].boardId == boardId
    requires forall j | 0 <= j < i :: list[j].boardId != boardId
    ensures BoardIndex(list, boardId) == Some(i)
  {
  }

  /** A board id file holding "503" and a newline gives board id 0x503. */
  lemma BoardIdExample()
    ensures BoardIdOf("503\n") == Success(0x503)
  {
    assert TrimEnd("503\n") == "503" by {
      assert "503\n"[..3] == "503";
    }
    assert HexValue("503") == 0x503 by {
      assert "503"[..2] == "50" && "50"[..1] == "5" && "5"[..0] == "";
    }
  }

  /** White space after the digits does not change the board id. */
  lemma BoardIdTrailingSpace(text: string, c: char)
    requires IsPySpace(c)
    ensures BoardIdOf(text + [c]).Success? <==> BoardIdOf(text).Success?
    ensures BoardIdOf(text).Success? ==> BoardIdOf(text + [c]).value == BoardIdOf(text).value
  {
    assert (text + [c])[..|text|] == text;
  }

  /** A board id file with leading white space is refused by int(). */
  lemma BoardIdLeadingSpace(text: string)
    requires text != [] && IsPySpace(text[0])
    ensures BoardIdOf(text) == Failure(ValueError("0x" + text))
  {
    var ds := TrimEnd(text);
    if ds != [] {
      assert ds[0] == text[0];
      assert !IsHexDigit(ds[0]);
    }
  }

  /** Hexadecimal digits followed by white space read as those digits' value, masked. */
  lemma BoardIdOfDigits(ds: string, ws: string)
    requires ds != [] && forall k | 0 <= k < |ds| :: IsHexDigit(ds[k])
    requires forall k | 0 <= k < |ws| :: IsPySpace(ws[k])
    ensures BoardIdOf(ds + ws) == Success(Mask(HexValue(ds)))
  {
    TrimEndOfSpace(ds, ws);
  }

  lemma {:induction false} TrimEndOfSpace(ds: string, ws: string)
    requires ds != [] && !IsPySpace(ds[|ds| - 1])
    requires forall k | 0 <= k < |ws| :: IsPySpace(ws[k])
    ensures TrimEnd(ds + ws) == ds
    decreases |ws|
  {
    if ws == [] {
      assert ds + ws == ds;
    } else {
      var w := ws[..|ws| - 1];
      assert (ds + ws)[..|ds + ws| - 1] == ds + w;
      TrimEndOfSpace(ds, w);
    }
  }

  /** A soc_name file holding "x5" and a newline selects the X5 boards. */
  lemma X5Chosen()
    ensures BoardList("x5\n") == AllBoardDataX5
  {
    X5At(Lower("x5\n"), 0);
    StripKeepsChoice("x5\n");
  }

  /** Board id 0x503 on an X5 system is the RDK X5. */
  lemma RdkX5Found()
    ensures BoardIndex(AllBoardDataX5, 0x503) == Some(4) && AllBoardDataX5[4].boardName == "RDK_X5"
  {
    BoardIndexAt(AllBoardDataX5, 0x503, 4);
  }

  /**
   * In the X3CM table two pins carry the CVM name "GPIO25" (BCM 26 and BCM
   * 25): the CVM map has fewer entries than the board has pins, and
   * "GPIO25" always yields the later one, Linux GPIO 29.
   */
  lemma X3CmCvmCollision(fs: Listing)
    ensures X3CmPin[14].cvm == X3CmPin[20].cvm == "GPIO25" && X3CmPin[14].bcm == 26 && X3CmPin[20].bcm == 25
    ensures |SortData(4, Rewritten(X3CmPin, fs))| < |X3CmPin|
    ensures Name("GPIO25") in SortData(4, Rewritten(X3CmPin, fs))
    ensures SortData(4, Rewritten(X3CmPin, fs))[Name("GPIO25")].gpioId == 29
  {
    var rs := Rewritten(X3CmPin, fs);
    assert Column(rs[14], 4) == Column(X3CmPin[14], 4);
    assert Column(rs[20], 4) == Column(X3CmPin[20], 4);
    SortDataLoses(4, rs, 14, 20);
    X3CmLaterNames();
    forall j | 20 < j < |rs| ensures Column(rs[j], 4) != Name("GPIO25") {
      assert Column(rs[j], 4) == Column(X3CmPin[j], 4);
    }
    SortDataLastWins(4, rs, 20);
  }

  /** No X3CM pin after the 21st is named "GPIO25" in CVM mode. */
  lemma X3CmLaterNames()
    ensures forall j | 20 < j < |X3CmPin| :: X3CmPin[j].cvm != "GPIO25"
  {
    forall j | 20 < j < |X3CmPin| ensures X3CmPin[j].cvm != "GPIO25" {
      if j == 21 {} else if j == 22 {} else if j == 23 {} else if j == 24 {} else if j == 25 {} else if j == 26 {} else if j == 27 {}
    }
  }

  /**
   * In the RDK X5 table the pins on header 33 and 32 are both named "PWM" in
   * CVM mode: the name reaches only header 32, Linux GPIO 356.
   */
  lemma RdkX5CvmCollision(fs: Listing)
    ensures RdkX5Pin[12].cvm == RdkX5Pin[24].cvm == "PWM" && RdkX5Pin[12].board == 33 && RdkX5Pin[24].board == 32
    ensures |SortData(4, Rewritten(RdkX5Pin, fs))| < |RdkX5Pin|
    ensures Name("PWM") in SortData(4, Rewritten(RdkX5Pin, fs))
    ensures SortData(4, Rewritten(RdkX5Pin, fs))[Name("PWM")].gpioId == 356
  {
    var rs := Rewritten(RdkX5Pin, fs);
    assert Column(rs[12], 4) == Column(RdkX5Pin[12], 4);
    assert Column(rs[24], 4) == Column(RdkX5Pin[24], 4);
    SortDataLoses(4, rs, 12, 24);
    RdkX5LaterNames();
    forall j | 24 < j < |rs| ensures Column(rs[j], 4) != Name("PWM") {
      assert Column(rs[j], 4) == Column(RdkX5Pin[j], 4);
    }
    SortDataLastWins(4, rs, 24);
  }

  /** No RDK X5 pin after the 25th is named "PWM" in CVM mode. */
  lemma RdkX5LaterNames()
    ensures forall j | 24 < j < |RdkX5Pin| :: RdkX5Pin[j].cvm != "PWM"
  {
    forall j | 24 < j < |RdkX5Pin| ensures RdkX5Pin[j].cvm != "PWM" {
      if j == 25 {} else if j == 26 {} else if j == 27 {}
    }
  }

  // ---------------------------------------------------------------- the BOARD column of the tables

  /** The BOARD numbers of a table, in table order. */
  function BoardColumn(rows: seq<PinRow>): seq<int> {
    seq(|rows|, i requires 0 <= i < |rows| => rows[i].board)
  }

  lemma Sdbv3Boards()
    ensures BoardColumn(Sdbv3Pin) == HeaderPinsSdbv3
  {
  }

  lemma EvbX5Boards()
    ensures BoardColumn(EvbX5Pin) == HeaderPinsEvbX5
  {
  }

  lemma SdbBoards()
    ensures BoardColumn(SdbPin) == HeaderPins
  {
  }

  lemma X3PiBoards()
    ensures BoardColumn(X3PiPin) == HeaderPins
  {
  }

  lemma X3CmBoards()
    ensures BoardColumn(X3CmPin) == HeaderPins
  {
  }

  lemma X3PiV21Boards()
    ensures BoardColumn(X3PiV21Pin) == HeaderPins
  {
  }

  lemma RdkX5Boards()
    ensures BoardColumn(RdkX5Pin) == HeaderPins
  {
  }

  /** Every table of either board list numbers its pins with pairwise distinct BOARD numbers. */
  lemma BoardColumnsDistinct(list: seq<BoardData>, k: nat)
    requires list == AllBoardDataX3 || list == AllBoardDataX5
    requires k < |list|
    ensures DistinctInts(BoardColumn(list[k].pinInfo))
  {
    HeaderPinsSorted();
    HeaderPinsSdbv3Sorted();
    HeaderPinsEvbX5Sorted();
    HeaderSortedDistinct(HeaderPins);
    HeaderSortedDistinct(HeaderPinsSdbv3);
    HeaderSortedDistinct(HeaderPinsEvbX5);
    Sdbv3Boards();
    EvbX5Boards();
    SdbBoards();
    X3PiBoards();
    X3CmBoards();
    X3PiV21Boards();
    RdkX5Boards();
  }

  /** With distinct BOARD numbers, the BOARD map has one entry per pin, each with that pin's own data. */
  lemma BoardMapComplete(rows: seq<PinRow>, fs: Listing)
    requires DistinctInts(BoardColumn(rows))
    ensures |SortData(2, Rewritten(rows, fs))| == |rows|
    ensures forall i | 0 <= i < |rows| ::
      && Num(rows[i].board) in SortData(2, Rewritten(rows, fs))
      && SortData(2, Rewritten(rows, fs))[Num(rows[i].board)] == Info(Rewritten(rows, fs)[i])
  {
    var rs := Rewritten(rows, fs);
    assert forall i | 0 <= i < |rows| :: Column(rs[i], 2) == Num(rows[i].board) by {
      forall i | 0 <= i < |rows| ensures Column(rs[i], 2) == Num(rows[i].board) {
        assert rs[i].(gpioChipDir := rows[i].gpioChipDir, pwmChipDir := rows[i].pwmChipDir) == rows[i];
        assert BoardColumn(rows)[i] == rows[i].board;
      }
    }
    assert DistinctKeys(2, rs) by {
      forall i, j | 0 <= i < j < |rs| ensures Column(rs[i], 2) != Column(rs[j], 2) {
        assert BoardColumn(rows)[i] != BoardColumn(rows)[j];
      }
    }
    SortDataSize(2, rs);
    forall i | 0 <= i < |rows|
      ensures Num(rows[i].board) in SortData(2, rs) && SortData(2, rs)[Num(rows[i].board)] == Info(rs[i])
    {
      SortDataLastWins(2, rs, i);
    }
  }

  /** For every supported board the BOARD map loses no pin, whatever the directory tree. */
  lemma BoardModeOnePerPin(list: seq<BoardData>, k: nat, fs: Listing)
    requires list == AllBoardDataX3 || list == AllBoardDataX5
    requires k < |list|
    ensures |SortData(2, Rewritten(list[k].pinInfo, fs))| == |list[k].pinInfo|
  {
    BoardColumnsDistinct(list, k);
    BoardMapComplete(list[k].pinInfo, fs);
  }

  // ---------------------------------------------------------------- board ids

  /** No board id occurs twice in the list. */
  predicate DistinctIds(list: seq<BoardData>) {
    forall i, j | 0 <= i < j < |list| :: list[i].boardId != list[j].boardId
  }

  /** No two boards of the X3 list share an id. */
  lemma X3IdsDistinct()
    ensures DistinctIds(AllBoardDataX3)
  {
  }

  /** No two boards of the X5 list share an id. */
  lemma X5IdsDistinct()
    ensures DistinctIds(AllBoardDataX5)
  {
  }

  /** With distinct ids the first match is the only one: each entry is found by its own id. */
  lemma UniqueMatch(list: seq<BoardData>, k: nat)
    requires DistinctIds(list) && k < |list|
    ensures BoardIndex(list, list[k].boardId) == Some(k)
  {
    BoardIndexAt(list, list[k].boardId, k);
  }
}
