# GPIO bookkeeping of x5-hobot-io, modelled in Dafny

This project models two pieces of the D-Robotics x5-hobot-io repository. Together they tie
kernel GPIO lines to the pins of a board header.

* **`hb_gpioinfo/gpioinfo.c`**, a modified libgpiod `gpioinfo`.
  * `parse_file` reads one dump of the `gpio_debug` driver into the global `gpio_data` table.
    A dump has a header `<chip>: GPIOs <a>-<b>, parent: <parent>` followed by
    `PinNode: <node> PinName: <name>` lines. Each pin's `node_num` is the integer after the
    second `_` of its node. Its `pin_num` is that integer plus the range start `<a>`.
  * `resolve_line` matches a kernel line against the lines named on the command line.
  * `list_lines` walks one chip's offsets. With requests it prints the lines that
    `resolve_line` accepts. Without requests it prints one row per parsed record of the chip,
    with the first pin whose `node_num` is the offset (the lookup in `print_line_info`).
  * `main` decides the exit status.
* **`Hobot/GPIO/gpio_pin_data.py`** of the Python `Hobot.GPIO` package.
  * The seven board pin tables and the two board lists are transcribed value for value.
  * `get_all_pin_data` does the following, in order:
    1. reads the board id as a hexadecimal literal and masks it with `& 0xfff`;
    2. picks the X5 or X3 list from the SoC name;
    3. finds the first board with that id;
    4. points each chip entry of a copy of its table at the `gpiochip*` / `pwmchip*`
       directory found under `/sys/devices/platform/`;
    5. indexes the rows by the five numbering modes with `sort_data`.

Modules:

| module | file | what it holds |
|---|---|---|
| `Wrappers` | `wrappers.dfy` | `Option`, `Result` |
| `Scanf` | `scanf.dfy` | the `sscanf` directives the C code uses: literal text, white space, `%s`, `%[^c]`, `%d` |
| `GpioParse` | `gpio_parse.dfy` | `fgets` chunking; header, range and pin-line scans; `parse_file` as the class `DebugTable` |
| `LineResolve` | `line_resolve.dfy` | `resolve_line`, as the class `LineResolver` holding the requests and `num_found` |
| `GpioList` | `gpio_list.dfy` | the pin lookup, `list_lines`, and the exit rule of `main` |
| `PinTables` | `pin_tables.dfy` | the board tables and `ALL_BOARD_DATA_X3` / `ALL_BOARD_DATA_X5` |
| `HeaderOrder` | `header_order.dfy` | the odd-then-even order of the BOARD column, and why it rules out duplicates |
| `PinData` | `pin_data.dfy` | the board id, the board-list choice, the board search, the path rewrite and the lookup maps |

How the source is represented:

* **The file system.** A debug dump is its text: `Some(text)`, or `None` when `fopen` fails.
  The sysfs files read by the Python code are their texts. The directory tree under
  `/sys/devices/platform/` is a map from each existing directory to its entries, in the order
  `os.listdir` returns them.
* **libgpiod.** A chip is its name and the name, or none, of each line.
* **tools-common.** Its helpers are not part of this model. The resolver that `resolver_init`
  builds is a given state. `resolve_lines_by_offset` is a function parameter that only has to
  keep the number of requests. It sees only the requests and the line count, so it cannot
  change `num_found` or the strict flag. `resolve_done` is a predicate parameter.
* **Imperative code.** The loops of the C and Python code are `while`/`for` loops in methods.
  Each method is specified by a function of its inputs, and the lemmas are proved about those
  functions. The two path-rewrite passes work in place on an `array` of rows.

Behaviour of the code worth knowing:

* **A node in the third-field form.** `%*[^_]_%*[^_]_%d` reads the integer after the *second* `_`.
  For a node such as `aon_gpio_porta_7` the `%d` meets `porta_7` and fails, so the pin's
  `node_num` stays 0 from the global initialiser (`GpioParse.ThirdFieldExample`).
* **Strict matching.** With `--strict`, `resolve_line` overwrites the record on every later
  match, so the record ends up on the last line with the requested name
  (`LineResolve.StrictLastMatch`). A repeated match raises no ambiguity report.
* **`num_found` with requests.** `num_found` is incremented only in the no-request branch of
  `list_lines`, once per printed record row. With requests, nothing in this file counts a
  line found by name (`GpioList.ListLines`, `GpioList.Run`).
* **The header's parent.** `%s` stops at white space only, so the parent keeps any comma that
  follows it in the header.
* **Duplicate pins.** A dump that lists two pins with the same `node_num` keeps both. The
  lookup shows the first (`GpioList.FirstPinIndex`).

Some CVM names repeat within a table: `GPIO25` in `X3_CM_PIN` and `X3_PI_V2_1_PIN`, and `PWM`
in `RDK_X5_PIN`. The CVM map keeps only the last
row with such a name, so it has fewer entries than the table has pins
(`PinData.X3CmCvmCollision`, `PinData.RdkX5CvmCollision`). The BOARD numbers of every table
are pairwise distinct, so the BOARD map has one entry per pin (`PinData.BoardModeOnePerPin`).

## Model

| member | source | states |
|---|---|---|
| Scanf.ExcludingToken | hb_gpioinfo/gpioinfo.c:61 | `%[^c]` reads exactly the longest non-empty run without `c` |
| Scanf.WordAfterSpace | hb_gpioinfo/gpioinfo.c:68 | after a white-space character, `%s` reads exactly the next run of non-space characters |
| Scanf.DecimalOfDigits | hb_gpioinfo/gpioinfo.c:62 | `%d` on a run of digits yields their decimal value and stops at the first non-digit |
| Scanf.DecimalRejects | hb_gpioinfo/gpioinfo.c:70 | `%d` fails on a character that is neither space, sign nor digit |
| GpioParse.Chunks | hb_gpioinfo/gpioinfo.c:60-66 | the `fgets` pieces concatenate back to the file text; each is non-empty, shorter than the 256-byte buffer and has no newline before its last character; every piece but the last ends with a newline or fills the buffer (255 characters); there are no pieces exactly when the file is empty |
| GpioParse.DebugTable.constructor | hb_gpioinfo/gpioinfo.c:47-48 | the table starts with 100 zeroed slots and `gpio_index` 0 |
| GpioParse.DebugTable.ParseFile | hb_gpioinfo/gpioinfo.c:49-81 | a file that does not open changes nothing; one that opens appends exactly its parsed record and advances `gpio_index` by one |
| GpioParse.ReadDump | hb_gpioinfo/gpioinfo.c:56-77 | the record read equals the header fields plus the pins of all later lines, in file order |
| GpioParse.ScanPinInto | hb_gpioinfo/gpioinfo.c:68-76 | a line appends one pin when both `PinNode` and `PinName` convert, and nothing otherwise |
| GpioParse.PinCount | hb_gpioinfo/gpioinfo.c:66-77 | `pin_count` equals the number of lines that match the pin format |
| GpioParse.PinsOfConcat | hb_gpioinfo/gpioinfo.c:66-77 | the pins of two runs of lines are the pins of each run, concatenated |
| GpioParse.PinLineEffect | hb_gpioinfo/gpioinfo.c:66-77 | a line contributes its pin at its own position, whatever surrounds it |
| GpioParse.PinsOfNumbers | hb_gpioinfo/gpioinfo.c:69-71 | every pin gets `node_num` from its node, and `pin_num = initial_gpio + node_num`, which is indeterminate when the header gave no base |
| GpioParse.DumpPinNumbers | hb_gpioinfo/gpioinfo.c:62-71 | all pins of a parsed dump follow the base-plus-offset rule, with the base scanned from the header's range |
| GpioParse.NodeNumOfFields | hb_gpioinfo/gpioinfo.c:70 | for `a_b_<digits>…` with `a`, `b` non-empty and free of `_`, `node_num` is the value of the digits |
| GpioParse.NodeNumAfterFields | hb_gpioinfo/gpioinfo.c:70 | after two skipped `_`-fields, `node_num` is the value of the digits that follow |
| GpioParse.PinLineOf | hb_gpioinfo/gpioinfo.c:68 | `PinNode: <node> PinName: <name>…` yields exactly that node and name |
| GpioParse.HeaderOf | hb_gpioinfo/gpioinfo.c:61 | `<chip>: <gpios>, parent: <parent>…` yields exactly those three fields |
| GpioParse.ParentTail | hb_gpioinfo/gpioinfo.c:61 | the `, parent: %s` tail yields the parent token |
| GpioParse.ScanBaseOf | hb_gpioinfo/gpioinfo.c:62 | `GPIOs <digits>…` gives `initial_gpio` as the value of the digits |
| GpioParse.BaseExample | hb_gpioinfo/gpioinfo.c:62 | `GPIOs 498-505` gives the base 498 |
| GpioParse.NodeNumExample | hb_gpioinfo/gpioinfo.c:69-70 | `aon_gpio_7` gives `node_num` 7 |
| GpioParse.OffsetExample | hb_gpioinfo/gpioinfo.c:71 | node `aon_gpio_7` under base 498 gives `pin_num` 505 |
| GpioParse.ThirdFieldExample | hb_gpioinfo/gpioinfo.c:70 | `aon_gpio_porta_7` gives `node_num` 0, since `%d` meets `porta` |
| LineResolve.LineResolver.constructor | hb_gpioinfo/gpioinfo.c:374-375 | the resolver holds the requests, `num_found` and the strict flag it was given |
| LineResolve.LineResolver.ResolveLine | hb_gpioinfo/gpioinfo.c:166-200 | every request is visited; the answer is true exactly when some request was already at this line or matched its name now; `num_found` is unchanged |
| LineResolve.VisitAllEach | hb_gpioinfo/gpioinfo.c:177-197 | each request is updated on its own, in place |
| LineResolve.UnnamedNeverMatches | hb_gpioinfo/gpioinfo.c:190-191 | a line without a name changes no request |
| LineResolve.SweepUntouched | hb_gpioinfo/gpioinfo.c:191 | a request whose id no line's name equals is never modified |
| LineResolve.NonStrictKeepsRecord | hb_gpioinfo/gpioinfo.c:186-187 | without `--strict`, a resolved request keeps its offset and chip whatever lines follow |
| LineResolve.NonStrictFirstMatch | hb_gpioinfo/gpioinfo.c:186-196 | without `--strict`, an open request is recorded at the first line with its name |
| LineResolve.StrictLastMatch | hb_gpioinfo/gpioinfo.c:186-196 | with `--strict`, the request is recorded at the last line with its name |
| LineResolve.SweepAllPerRequest | hb_gpioinfo/gpioinfo.c:177-197 | requests do not interact: after any run of lines each is where its own sweep leaves it |
| LineResolve.SweepAllSnoc | hb_gpioinfo/gpioinfo.c:265-275 | seeing one more line is one more `resolve_line` step |
| GpioList.FirstPinIndex | hb_gpioinfo/gpioinfo.c:230-238 | the first pin whose `node_num` is the offset; none exactly when no pin has it |
| GpioList.ShownPin | hb_gpioinfo/gpioinfo.c:230-238 | the lookup loop stops at that first pin; a shown pin is in the record and has the line's offset |
| GpioList.ListLines | hb_gpioinfo/gpioinfo.c:245-322 | with requests, the requests and rows are those of the offset loop from the start state, stopping when `resolve_done` holds, and `num_found` is unchanged; without, every offset prints one row per record named like the chip and `num_found` grows by offsets × records |
| GpioList.ListOffset | hb_gpioinfo/gpioinfo.c:268-316 | one offset: either the resolve step and at most one printed line, or the record rows and their count |
| GpioList.ListRecords | hb_gpioinfo/gpioinfo.c:282-316 | one row per record whose `gpiochip` equals the chip's name, in table order, each counted once in `num_found` |
| GpioList.Run | hb_gpioinfo/gpioinfo.c:362-400 | exit success exactly when a named chip was found, every chip opened, and with line arguments `num_found` equals their number |
| GpioList.RecordRowsCount | hb_gpioinfo/gpioinfo.c:282-316 | the rows printed for one offset are as many as the records counted |
| GpioList.ListedRowsCount | hb_gpioinfo/gpioinfo.c:265-316 | without requests a chip of `n` lines prints `n` rows per matching record |
| GpioList.NoRecordNoRows | hb_gpioinfo/gpioinfo.c:282-283 | a chip no dump describes prints no rows and counts nothing |
| GpioList.RecordRowsShape | hb_gpioinfo/gpioinfo.c:282-316 | every row names the chip, the offset and a record of that chip, with the first pin at the offset |
| GpioList.RequestPassSweeps | hb_gpioinfo/gpioinfo.c:265-275 | when `resolve_done` never holds, list_lines leaves the requests as `resolve_line` over all lines leaves them |
| GpioList.RequestRowsReported | hb_gpioinfo/gpioinfo.c:273-279 | with requests every printed row is `<chip> <offset>` for an offset of the chip |
| PinData.LeadingSpace | hb_gpio_py/hobot-gpio/lib/python/Hobot/GPIO/gpio_pin_data.py:311 | the length of the leading white-space run that `strip()` removes |
| PinData.TrimEnd | hb_gpio_py/hobot-gpio/lib/python/Hobot/GPIO/gpio_pin_data.py:308 | the trailing white space that `int()` tolerates (and `strip()` on line 311 drops): a prefix keeping all but that run, ending in a non-space character |
| PinData.HexDigitValue | hb_gpio_py/hobot-gpio/lib/python/Hobot/GPIO/gpio_pin_data.py:308 | the value of each hexadecimal digit, case-insensitive: below 16, and the digit is the lower-cased character at that position of `0123456789abcdef` |
| PinData.Mask | hb_gpio_py/hobot-gpio/lib/python/Hobot/GPIO/gpio_pin_data.py:309 | `& 0xfff` gives a value below 0x1000 that differs from the id by a multiple of 0x1000 |
| PinData.BoardIdOf | hb_gpio_py/hobot-gpio/lib/python/Hobot/GPIO/gpio_pin_data.py:307-309 | a board id that parses is below 0x1000 |
| PinData.BoardIdOfDigits | hb_gpio_py/hobot-gpio/lib/python/Hobot/GPIO/gpio_pin_data.py:307-309 | hexadecimal digits followed by white space read as the masked value of the digits |
| PinData.BoardIdTrailingSpace | hb_gpio_py/hobot-gpio/lib/python/Hobot/GPIO/gpio_pin_data.py:307-309 | white space after the id changes neither whether it parses nor its value |
| PinData.BoardIdLeadingSpace | hb_gpio_py/hobot-gpio/lib/python/Hobot/GPIO/gpio_pin_data.py:307-309 | leading white space lands after `0x` and `int()` raises ValueError for the whole literal |
| PinData.BoardIdExample | hb_gpio_py/hobot-gpio/lib/python/Hobot/GPIO/gpio_pin_data.py:306-309 | the file text `503` plus a newline gives board id 0x503 |
| PinData.BoardList | hb_gpio_py/hobot-gpio/lib/python/Hobot/GPIO/gpio_pin_data.py:311-315 | the X5 list exactly when `x5` occurs in the lower-cased SoC name, otherwise the X3 list |
| PinData.StripKeepsChoice | hb_gpio_py/hobot-gpio/lib/python/Hobot/GPIO/gpio_pin_data.py:311-312 | `strip()` never changes whether `x5` occurs in the lower-cased SoC name |
| PinData.X5Chosen | hb_gpio_py/hobot-gpio/lib/python/Hobot/GPIO/gpio_pin_data.py:311-315 | a SoC name `x5` plus a newline selects `ALL_BOARD_DATA_X5` |
| PinData.BoardIndex | hb_gpio_py/hobot-gpio/lib/python/Hobot/GPIO/gpio_pin_data.py:316-320 | the first entry with the board id, and none exactly when no entry has it |
| PinData.BoardIndexAt | hb_gpio_py/hobot-gpio/lib/python/Hobot/GPIO/gpio_pin_data.py:316-320 | an entry with the id and none before it is the one found |
| PinData.FindBoard | hb_gpio_py/hobot-gpio/lib/python/Hobot/GPIO/gpio_pin_data.py:316-323 | the for/break search returns that first entry, or raises "Board type is not support" |
| PinData.RdkX5Found | hb_gpio_py/hobot-gpio/lib/python/Hobot/GPIO/gpio_pin_data.py:268-281 | board id 0x503 of the X5 list is entry 4, an RDK_X5 |
| PinData.X3IdsDistinct | hb_gpio_py/hobot-gpio/lib/python/Hobot/GPIO/gpio_pin_data.py:259-266 | no two X3 boards share an id |
| PinData.X5IdsDistinct | hb_gpio_py/hobot-gpio/lib/python/Hobot/GPIO/gpio_pin_data.py:268-281 | no two X5 boards share an id |
| PinData.UniqueMatch | hb_gpio_py/hobot-gpio/lib/python/Hobot/GPIO/gpio_pin_data.py:316-320 | in a list with distinct ids each board is found by its own id |
| PinData.FirstWithPrefix | hb_gpio_py/hobot-gpio/lib/python/Hobot/GPIO/gpio_pin_data.py:333-338 | the first directory entry with the prefix, and none exactly when no entry has it |
| PinData.ChipPath | hb_gpio_py/hobot-gpio/lib/python/Hobot/GPIO/gpio_pin_data.py:325-338 | a path exactly when the directory exists and has an entry with the prefix, and then it is the directory plus `/` plus the first such entry |
| PinData.GpioRewrite | hb_gpio_py/hobot-gpio/lib/python/Hobot/GPIO/gpio_pin_data.py:325-338 | only column 0 can change; an empty column stays empty; a set column becomes the `gpiochip*` path whenever one is found, and otherwise the row is unchanged |
| PinData.PwmRewrite | hb_gpio_py/hobot-gpio/lib/python/Hobot/GPIO/gpio_pin_data.py:340-353 | only column 6 can change; an empty column stays empty; a set column becomes the `pwmchip*` path whenever one is found, and otherwise the row is unchanged |
| PinData.Rewritten | hb_gpio_py/hobot-gpio/lib/python/Hobot/GPIO/gpio_pin_data.py:324-353 | same number of rows, and only the two directory columns differ |
| PinData.RewriteGpioDirs | hb_gpio_py/hobot-gpio/lib/python/Hobot/GPIO/gpio_pin_data.py:324-338 | in place, each row becomes its GPIO rewrite and no other row changes |
| PinData.RewritePwmDirs | hb_gpio_py/hobot-gpio/lib/python/Hobot/GPIO/gpio_pin_data.py:339-353 | in place, each row becomes its PWM rewrite and no other row changes |
| PinData.RewritePaths | hb_gpio_py/hobot-gpio/lib/python/Hobot/GPIO/gpio_pin_data.py:319-353 | the deep copy after both passes is the rewritten table |
| PinData.SortData | hb_gpio_py/hobot-gpio/lib/python/Hobot/GPIO/gpio_pin_data.py:355-360 | a map from the key column has no more entries than there are rows |
| PinData.SortDataKeys | hb_gpio_py/hobot-gpio/lib/python/Hobot/GPIO/gpio_pin_data.py:355-360 | the keys are exactly the values of the key column |
| PinData.SortDataLastWins | hb_gpio_py/hobot-gpio/lib/python/Hobot/GPIO/gpio_pin_data.py:355-360 | a row whose key no later row repeats is found under that key with its own data |
| PinData.SortDataSize | hb_gpio_py/hobot-gpio/lib/python/Hobot/GPIO/gpio_pin_data.py:355-360 | with distinct keys the map has one entry per row |
| PinData.SortDataLoses | hb_gpio_py/hobot-gpio/lib/python/Hobot/GPIO/gpio_pin_data.py:355-360 | a repeated key leaves the map with fewer entries than rows |
| PinData.RewrittenKeepsKeys | hb_gpio_py/hobot-gpio/lib/python/Hobot/GPIO/gpio_pin_data.py:324-360 | the path rewrite never changes which keys a map has |
| PinData.GetAllPinData | hb_gpio_py/hobot-gpio/lib/python/Hobot/GPIO/gpio_pin_data.py:292-369 | ValueError for an id `int()` refuses; "Board type is not support" when the chosen list lacks the id; else the board's name and the five maps of its rewritten table |
| PinData.X3CmCvmCollision | hb_gpio_py/hobot-gpio/lib/python/Hobot/GPIO/gpio_pin_data.py:147-154 | two X3CM rows are named `GPIO25`, so the CVM map is smaller than the table and `GPIO25` yields Linux GPIO 29, from the later row |
| PinData.RdkX5CvmCollision | hb_gpio_py/hobot-gpio/lib/python/Hobot/GPIO/gpio_pin_data.py:209-222 | two RDK_X5 rows are named `PWM`, so the CVM map is smaller than the table and `PWM` yields Linux GPIO 356, from the later row |
| PinData.Sdbv3Boards | hb_gpio_py/hobot-gpio/lib/python/Hobot/GPIO/gpio_pin_data.py:38-66 | the BOARD column of `SDBV3_PIN` is the header order without pins 27 and 28 |
| PinData.SdbBoards | hb_gpio_py/hobot-gpio/lib/python/Hobot/GPIO/gpio_pin_data.py:68-98 | the BOARD column of `SDB_PIN` is the full header order |
| PinData.X3PiBoards | hb_gpio_py/hobot-gpio/lib/python/Hobot/GPIO/gpio_pin_data.py:100-130 | the BOARD column of `X3_PI_PIN` is the full header order |
| PinData.X3CmBoards | hb_gpio_py/hobot-gpio/lib/python/Hobot/GPIO/gpio_pin_data.py:132-162 | the BOARD column of `X3_CM_PIN` is the full header order |
| PinData.X3PiV21Boards | hb_gpio_py/hobot-gpio/lib/python/Hobot/GPIO/gpio_pin_data.py:164-194 | the BOARD column of `X3_PI_V2_1_PIN` is the full header order |
| PinData.RdkX5Boards | hb_gpio_py/hobot-gpio/lib/python/Hobot/GPIO/gpio_pin_data.py:196-226 | the BOARD column of `RDK_X5_PIN` is the full header order |
| PinData.EvbX5Boards | hb_gpio_py/hobot-gpio/lib/python/Hobot/GPIO/gpio_pin_data.py:228-257 | the BOARD column of `EVB_X5_PIN` is the header order without pin 36 |
| PinData.BoardColumnsDistinct | hb_gpio_py/hobot-gpio/lib/python/Hobot/GPIO/gpio_pin_data.py:259-281 | every table of either board list has pairwise distinct BOARD numbers |
| PinData.BoardMapComplete | hb_gpio_py/hobot-gpio/lib/python/Hobot/GPIO/gpio_pin_data.py:355-363 | with distinct BOARD numbers, the BOARD map has one entry per pin, each with that pin's rewritten data |
| PinData.BoardModeOnePerPin | hb_gpio_py/hobot-gpio/lib/python/Hobot/GPIO/gpio_pin_data.py:362-363 | for every listed board, the BOARD map has exactly as many entries as the table has pins |
| HeaderOrder.HeaderSortedDistinct | hb_gpio_py/hobot-gpio/lib/python/Hobot/GPIO/gpio_pin_data.py:38-257 | a column in odd-then-even ascending order has no value twice |
| HeaderOrder.HeaderSortedBefore | hb_gpio_py/hobot-gpio/lib/python/Hobot/GPIO/gpio_pin_data.py:38-257 | in such a column every earlier pin ranks below every later one |
| HeaderOrder.HeaderPinsSorted | hb_gpio_py/hobot-gpio/lib/python/Hobot/GPIO/gpio_pin_data.py:68-98 | the 28 header pins of the full tables are listed odd pins first, then even, each ascending |
| HeaderOrder.HeaderPinsSdbv3Sorted | hb_gpio_py/hobot-gpio/lib/python/Hobot/GPIO/gpio_pin_data.py:38-66 | the 26 pins of `SDBV3_PIN` are in that order |
| HeaderOrder.HeaderPinsEvbX5Sorted | hb_gpio_py/hobot-gpio/lib/python/Hobot/GPIO/gpio_pin_data.py:228-257 | the 27 pins of `EVB_X5_PIN` are in that order |

## Left out

- Printing is not modelled: the column layout, the quoting in `print_line_info`, `print_line_attributes` and the headline printed at offset 0. A printed line is a `Row` value.
- The `opendir`/`readdir` walk of `/sys/kernel/debug/gpio_debug/` in `main` is not modelled, nor its exit on an over-long path. Each dump that walk finds is one `DebugTable.ParseFile` call.
- `GpioParse.DebugTable.ParseFile` requires a free slot and at most 100 pin lines per dump. The C code checks neither bound and writes past the arrays.
- `initial_gpio` is left unassigned when the header has no `GPIOs <n>`. The C value is indeterminate; the model writes `pinNum` as None.
- `list_lines` copies `gpios` and `parent` into 32-byte buffers it never reads. The copy, which could overflow for long fields, is not modelled.
- Memory management is not modelled: `free`, `gpiod_line_info_free` and `gpiod_chip_close`. In particular, gpioinfo.c:312 frees `info` inside the loop over the chip's records, so a second matching record at the same offset prints from freed memory and frees it again. `GpioList.ListedRowsCount` counts such rows as printed.
- `Scanf.DecimalValue` and `GpioParse.MakePin` use unbounded integers. In C, a `%d` value beyond `INT_MAX` is undefined behaviour, and `initial_gpio + node_num` and `num_found++` can overflow `int`; none of this is modelled.
- `GpioParse.ChunkLen` and `GpioParse.Chunks` count characters, while `fgets` fills its 256-byte buffer with bytes. For ASCII text the two agree; text with multi-byte characters would be split at different places.
- libgpiod is not part of this model: opening chips, reading chip and line info, `die_perror` on a failed read.
- tools-common is not part of this model: `resolver_init`, `resolve_lines_by_offset`, `resolve_done`, `validate_resolution`, `chip_paths`.
  - `GpioList.Run` takes `validate_resolution` to return.
  - `GpioList.ListLines` and `GpioList.Run` require that `resolve_lines_by_offset` keeps the number of requests.
  - `GpioList.ListLines` models `resolve_lines_by_offset` as a function from the requests and the line count to new requests. It therefore assumes the helper changes neither `num_found` nor the strict flag; the promise that `num_found` is unchanged with requests rests on that assumption.
- Command-line parsing (`parse_config`, help, version) is not modelled. Its result is the `Config` value and the remaining arguments.
- The permission checks at the top of `get_all_pin_data` are not modelled: they are I/O. So is the read of `/proc/device-tree/compatible`, whose result is unused.
- `PinData.BoardIdOf`: `int()` also accepts `_` between digits and non-ASCII digits. These are not modelled, so such board-id text counts as a ValueError.
- `PinData.IsX5`: `lower()` is modelled for ASCII letters only.
- `PinData.RewriteGpioDirs` and `PinData.RewritePwmDirs`: a path that exists but is not a directory makes `os.listdir` raise. The listing treats a path as existing only when it is a directory, so that error is not modelled.
- The order of `os.listdir` is an input, as the file system returns it.
