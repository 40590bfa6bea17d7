# img2movingai in Dafny

This project models the core of img2movingai. The program converts a raster image into a
MovingAI grid map and back. The model covers:

- the MovingAI map object and its parser (`img2movingai/movingaiparser.py`);
- the colour table, the image-to-text writer and the map-to-image painter
  (`img2movingai.py`).

A map file is text. It starts with header lines (`type T`, `height H`, `width W`, and
`key r c r1 c1 r2 c2 ...`). Then comes a line reading exactly `map`, then one line of tiles per
matrix row. A `key` line says that the key cell `(r, c)` unlocks the door cells
`(r1, c1)`, `(r2, c2)`, ...

Files:

- `text.dfy` (module `Text`) holds the Python string primitives the format relies on:
  - `str.split` with a one-character separator, which keeps empty pieces;
  - `int()` on a decimal token, and `str()` on a non-negative integer;
  - text written as newline-terminated lines.
- `movingaiparser.dfy` (module `MovingAIParser`) defines what parsing produces with pure
  functions. Examples are `ApplyKeyLine` for `_parse_keys`, `ApplyHeader` for
  `_parse_header`, `NewMap` for `__init__` and `ParseMapText` for `parse_map`. It also holds
  the class `MovingAIMap`, whose fields the methods `ParseHeader` and `ParseKeys` update in
  place. Each method is proved to produce exactly what the pure function describes. The
  queries `IsKey`, `IsDoor`, `FindKey`, `IsFree`, `AllFree` and `RandomFree` read the object.
  Python's exceptions become `Result`/`Outcome` values carrying `IndexError` or
  `ValueError`.
- `parser_properties.dfy` (module `ParserProperties`) proves lemmas about key lines, header
  replay and the cut at the `map` line.
- `img2movingai.dfy` (module `Img2MovingAI`) holds the colour table and its two lookups.
  `ImageToText` writes the map text of an image with the source's nested loops, and
  `MapToImage` paints an image from a map. An image is an `array2<Rgb>` indexed `[x, y]`.
- `conversion_properties.dfy` (module `ConversionProperties`) gives the line-by-line layout of
  the written text. It also proves the round trip image → text → parsed map → image.

Some behaviours of the code are easy to miss, and the model keeps them as written:

- A `key` line with an odd number of values, three or more, does not fail. `pairwise`
  silently drops the trailing value. A single value still raises `IndexError` at `pairs[0]`.
- A file without a `map` line gives an empty matrix. Construction then raises `IndexError`
  at `map_matrix[0]`.
- Rows are not checked against the declared width or height. A query that reads a cell
  (`is_free`, and through it `all_free`, as well as `movingai2img`) raises `IndexError` when
  that cell is missing. The model keeps that failure as a result rather than as a
  precondition.
- Template instantiation and a door-pixel sentinel colour do not appear in the code, so they
  are not modelled.

## Model

| member | source | states |
|---|---|---|
| Text.Split | img2movingai/movingaiparser.py:16 | `split(' ')` gives at least one piece. No piece holds the separator, and joining the pieces with it gives back the input. Together these fix the result. |
| Text.SplitJoin | img2movingai/movingaiparser.py:81 | Splitting undoes joining whenever no piece holds the separator. |
| Text.SplitTerminated | img2movingai.py:65-75 | Text written as newline-terminated lines splits on `'\n'` into exactly those lines plus one empty piece after the final newline. |
| Text.TerminatedSnoc | img2movingai.py:75 | Writing one more line appends it and its newline to the text so far. |
| Text.ParseInt | img2movingai/movingaiparser.py:19 | `int(token)` succeeds exactly on one or more ASCII digits with an optional sign. Its value is the decimal value of the digits, negated after a `-`. |
| Text.NatToString | img2movingai.py:66-67 | `str(n)` is a run of digits without a leading zero, and its decimal value is `n`. |
| Text.ParseIntNatToString | img2movingai.py:66-67 | `int(str(n)) == n`. |
| MovingAIParser.Pairwise | img2movingai/movingaiparser.py:88-89 | The result has length ⌊\|v\|/2⌋, and pair i is `(v[2i], v[2i+1])`. An odd trailing value is dropped. |
| MovingAIParser.ParseInts | img2movingai/movingaiparser.py:31 | Converting every token succeeds iff each token is an integer. The values keep length and order. Failure is `ValueError`. |
| MovingAIParser.DoorTable.Set | img2movingai/movingaiparser.py:33 | `doors[k] = v`: afterwards `k` maps to `v` and every other key keeps its entry. A new key goes to the end of the insertion order, and an existing key keeps its place. |
| MovingAIParser.ApplyKeyLine | img2movingai/movingaiparser.py:27-33 | The placeholder leaves the table unchanged. The line fails iff it has no arguments, or it is not a placeholder and has a non-integer token or fewer than two values. The error is `ValueError` exactly when a token is not an integer, and `IndexError` otherwise. |
| MovingAIParser.ApplyHeaderLine | img2movingai/movingaiparser.py:16-25 | A header line changes only the field its command names, and unknown commands change nothing. `height`, `width` or `type` without an argument raises `IndexError`. A non-integer `height`/`width` argument raises `ValueError`; an integer one, signed or not, becomes the field. A `type` argument becomes the type. A `key` line has exactly the effect and the error of `_parse_keys` on its arguments. |
| MovingAIParser.Command | img2movingai/movingaiparser.py:16 | `h.split(' ')[0]`: the command holds no space, and it is the whole line or the prefix before the line's first space. |
| MovingAIParser.Args | img2movingai/movingaiparser.py:16 | `h.split(' ')[1:]`: no argument holds a space, and the command and the arguments joined with spaces give back the line. |
| MovingAIParser.ApplyHeader | img2movingai/movingaiparser.py:15-25 | Replaying the header never changes the matrix and keeps the door table well formed. |
| MovingAIParser.InitialState | img2movingai/movingaiparser.py:8-12 | Before the header: the given matrix, height the number of rows, width the length of row 0, type `unknown`, no doors. |
| MovingAIParser.NewMap | img2movingai/movingaiparser.py:7-13 | An empty matrix raises `IndexError`. Otherwise the map keeps the given matrix. |
| MovingAIParser.SplitAtMap | img2movingai/movingaiparser.py:82-84 | The header holds no `map` line. If a `map` line exists, the lines are exactly header + `map` + matrix. If none exists, everything is header and the matrix is empty. |
| MovingAIParser.ParseMapText | img2movingai/movingaiparser.py:78-85 | A parsed map's matrix is exactly the lines after the first `map` line. |
| MovingAIParser.FirstHolder | img2movingai/movingaiparser.py:54-56 | The scan over the keys in insertion order stops at the first key whose list holds the cell, or runs past the end when none does. |
| MovingAIParser.ResolveIndex | img2movingai/movingaiparser.py:48 | Python indexing: an index in `-n .. n-1` is valid, and a negative index counts from the end. |
| MovingAIParser.MovingAIMap.constructor | img2movingai/movingaiparser.py:8-12 | The defaults: height is the number of rows, width is the length of row 0, type is `unknown`, and there are no doors. |
| MovingAIParser.MovingAIMap.Create | img2movingai/movingaiparser.py:7-13 | Construction raises exactly when `NewMap` does, with the same error. Otherwise the new object's fields are `NewMap`'s state. |
| MovingAIParser.MovingAIMap.ParseHeader | img2movingai/movingaiparser.py:15-25 | The loop raises exactly when the header replay raises, with the same error. Otherwise the fields become the replayed state. |
| MovingAIParser.MovingAIMap.ParseHeaderLine | img2movingai/movingaiparser.py:18-25 | One loop iteration raises exactly when `ApplyHeaderLine` does, with the same error, and then no field changes. Otherwise the fields become its result. |
| MovingAIParser.MovingAIMap.ParseKeys | img2movingai/movingaiparser.py:27-33 | The method raises exactly when `ApplyKeyLine` fails, with the same error, and then `doors` is unchanged. Otherwise `doors` becomes its result. No other field ever changes. |
| MovingAIParser.MovingAIMap.IsKey | img2movingai/movingaiparser.py:40-43 | `is_key(r, c)` iff `(r, c)` is a key of the table. |
| MovingAIParser.MovingAIMap.IsDoor | img2movingai/movingaiparser.py:35-38 | `is_door(r, c)` iff `(r, c)` is in the door list of some key. |
| MovingAIParser.MovingAIMap.FindKey | img2movingai/movingaiparser.py:50-56 | None iff `(r, c)` is not a door. Otherwise the result is the first key, in insertion order, whose list holds `(r, c)`. |
| MovingAIParser.MovingAIMap.Cell | img2movingai/movingaiparser.py:48 | `matrix[r][c]` with Python indexing. Outside the matrix or the row it raises `IndexError`. In range it is the tile, where a negative row or column index counts from the end (`matrix[r + len(matrix)]`, `row[c + len(row)]`). |
| MovingAIParser.MovingAIMap.IsFree | img2movingai/movingaiparser.py:45-48 | The query raises iff the tile does not exist. Otherwise it is free iff the tile is not `@` and no key unlocks `(r, c)`. |
| MovingAIParser.MovingAIMap.FreeInColumn | img2movingai/movingaiparser.py:59-60 | The inner loop of the comprehension gives the free `(c, r)` of one column with `r < n`, top to bottom. |
| MovingAIParser.MovingAIMap.FreeInColumns | img2movingai/movingaiparser.py:59-60 | The outer loop gives the free cells of columns `0 .. n-1`, ordered by column, then row. |
| MovingAIParser.MovingAIMap.AllFree | img2movingai/movingaiparser.py:58-61 | The query raises `IndexError` iff some visited cell (`c < width`, `r < height`) is missing. Otherwise `(c, r)` is in the result iff it lies in the grid and `is_free(r, c)` holds. The result is strictly increasing by column, then row, so it has no duplicates. |
| MovingAIParser.MovingAIMap.MissingCell | img2movingai/movingaiparser.py:58-61 | When the declared size overruns the matrix, some cell that `all_free` visits does not exist. |
| MovingAIParser.MovingAIMap.RandomFree | img2movingai/movingaiparser.py:63-67 | Errors from `all_free` pass through. With no free cell the result is `ValueError`. Otherwise it is a one-element list whose element is in `all_free()`. |
| MovingAIParser.ApplyHeaderErrorSticks | img2movingai/movingaiparser.py:17-25 | Once a header line raises, the whole header raises that error. |
| MovingAIParser.ParseMap | img2movingai/movingaiparser.py:78-85 | `parse_map` on file text raises exactly when `ParseMapText` fails, with the same error. Otherwise the new object holds `ParseMapText`'s state. |
| ParserProperties.KeyLineEffect | img2movingai/movingaiparser.py:31-33 | A non-placeholder key line of at least two integers maps `(v0, v1)` to the pairs `(v[2i+2], v[2i+3])`. Every other key keeps its entry. |
| ParserProperties.SecondKeyLineReplaces | img2movingai/movingaiparser.py:33 | A later line for the same key replaces its door list. |
| ParserProperties.OddTrailingValueDropped | img2movingai/movingaiparser.py:88-89 | `key 1 2 3` records key `(1, 2)` with no doors and raises nothing. |
| ParserProperties.KeyWithTwoDoors | img2movingai/movingaiparser.py:31-33 | `key 1 2 3 4 5 6` records key `(1, 2)` with doors `(3, 4)` and `(5, 6)`. |
| ParserProperties.ApplyHeaderAppend | img2movingai/movingaiparser.py:17-25 | Replaying `a + b` is replaying `a`, then `b` from its result. |
| ParserProperties.ApplyHeaderSnoc | img2movingai/movingaiparser.py:17-25 | Replaying one more line applies it to the state so far. |
| ParserProperties.UntouchedFields | img2movingai/movingaiparser.py:17-25 | A field that no header command names keeps its value through the replay. |
| ParserProperties.ReplayThrough | img2movingai/movingaiparser.py:17-25 | Replaying `before + [line] + after` is replaying `before`, then `line`, then `after`. |
| ParserProperties.LineSetsField | img2movingai/movingaiparser.py:18-23 | A `height`/`width` line that does not raise sets that field to its integer argument. A `type` line sets the type to its argument. |
| ParserProperties.LastHeightWins | img2movingai/movingaiparser.py:18-19 | The last `height` line decides the height. |
| ParserProperties.LastWidthWins | img2movingai/movingaiparser.py:20-21 | The last `width` line decides the width. |
| ParserProperties.LastTypeWins | img2movingai/movingaiparser.py:22-23 | The last `type` line decides the type. |
| ParserProperties.HeaderDefaults | img2movingai/movingaiparser.py:8-13 | A field that no header line names keeps its default: number of rows, length of row 0, `unknown`, or no doors. |
| ParserProperties.PlaceholderLineSkipped | img2movingai/movingaiparser.py:28-30 | `key $key$ ...` changes nothing. |
| ParserProperties.SplitAtFirstMap | img2movingai/movingaiparser.py:82-84 | The header is exactly the lines before the first `map` line, and the matrix is exactly the lines after it. |
| ParserProperties.MissingMapLineFails | img2movingai/movingaiparser.py:10 | Text without a `map` line fails with `IndexError`. |
| Img2MovingAI.ColorTableInjective | img2movingai.py:11-15 | The colour table names `WALL`, `FREE` and `TREE`, and no two names share a colour. |
| Img2MovingAI.ColorToChar | img2movingai.py:26-37 | White gives `.`, green gives `T`, and every other colour (black included) gives `@`. |
| Img2MovingAI.CharToColor | img2movingai.py:39-50 | `.` gives white, `T` gives green, and every other character gives black. The result is always a table colour. |
| Img2MovingAI.ColorRoundTrip | img2movingai.py:11-15 | Each table colour comes back unchanged from tile to colour. |
| Img2MovingAI.CharRoundTrip | img2movingai.py:26-50 | `@`, `.` and `T` come back unchanged. Any other character comes back as `@`. |
| Img2MovingAI.RowText | img2movingai.py:71-73 | Row `y` has one tile per column, and tile `x` is the tile of pixel `(x, y)`. |
| Img2MovingAI.MapLines | img2movingai.py:65-75 | The written lines are `type octile`, `height H`, `width W`, `map`, then one row per matrix line: H + 4 lines in all. |
| Img2MovingAI.MapText | img2movingai.py:65-75 | The written text, split on newlines, gives back exactly those lines and one empty piece after the final newline. |
| Img2MovingAI.HeaderText | img2movingai.py:65-68 | The first four written lines are the type, height, width and `map` lines. |
| Img2MovingAI.ImageToText | img2movingai.py:64-75 | The nested loops write exactly the newline-terminated header and rows of the image. |
| Img2MovingAI.ImageOf | img2movingai.py:88-90 | Pixel `(x, y)` of the painted image is the colour of `matrix[y][x]`, for `x < width`, `y < height`. |
| Img2MovingAI.MapToImage | img2movingai.py:86-90 | A negative size raises `ValueError`, and a missing tile raises `IndexError`. A map of non-negative size whose grid cells all exist always succeeds. The new image is `width` by `height`, with pixel `(x, y)` the colour of `matrix[y][x]`. |
| ConversionProperties.MapTextLayout | img2movingai.py:65-75 | The written text splits into `type octile`, `height H`, `width W` and `map`. Then come H lines of W tiles, where tile x of line y is the tile of pixel `(x, y)`, and last an empty piece. |
| ConversionProperties.TypeLineParses | img2movingai/movingaiparser.py:22-23 | `type octile` sets the type. |
| ConversionProperties.HeightLineParses | img2movingai/movingaiparser.py:18-19 | `height str(n)` sets the height to `n`. |
| ConversionProperties.WidthLineParses | img2movingai/movingaiparser.py:20-21 | `width str(n)` sets the width to `n`. |
| ConversionProperties.WrittenHeaderParses | img2movingai.py:65-67 | The written header replays to type `octile` and the image's height and width. |
| ConversionProperties.WrittenTextParses | img2movingai.py:64-75 | Parsing the written text gives the image's size, type `octile` and no doors. The matrix is the rows plus the empty line after the final newline. |
| ConversionProperties.ImageTextRoundTrip | img2movingai.py:70-73 | An image of table colours, written as text and parsed, yields a map that covers the grid and paints back to the same pixels. The parse is `parse_map` (img2movingai/movingaiparser.py:78-85) and the paint is `movingai2img` (img2movingai.py:88-90). |

## Left out

- File I/O: `open`/`read` in `parse_map` and the writes of `img2movingai`. The model takes and returns the text.
- Image library objects (`Image.open`, `load`, `Image.new`, `putpixel`, `save`). An image is an `array2` of RGB triples. Other pixel modes (palette, RGBA, greyscale) are not modelled.
- The command line entry point and the default output file names (`filename + ".map"`, `filename + ".png"`).
- The distribution of `random.sample`. `RandomFree` picks any element of `all_free()`.
- `__str__`, a debug formatter. Note that it prints the height where the width belongs.
- The one-argument tuple form of the queries (`is_free((r, c))`). Only the `(r, c)` form is modelled.
- Text.ParseInt: only an optional sign and ASCII digits are accepted. Python's `int()` also accepts surrounding whitespace, underscores and non-ASCII digits. `ParseMapText` takes the text as `read()` returns it, after newline translation.
- MovingAIParser.MovingAIMap.ParseHeader: after a header line raises, the object's fields are left unspecified, because the caller never sees the object.
- Img2MovingAI.MapToImage: the size and the tiles are checked before painting. The source paints and then raises at the first missing tile, and in both cases no image is produced.
- Template instantiation and the door-pixel sentinel: neither is part of this code.
