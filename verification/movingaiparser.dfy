/** The MovingAI grid-map model and its parser (img2movingai/movingaiparser.py).

    A map file is text: header lines, a line reading exactly `map`, then one
    line per matrix row. Header lines are commands separated by single spaces:
    `height N`, `width N`, `type T` and `key r c r1 c1 r2 c2 ...`, which
    declares that the key at `(r, c)` unlocks the doors `(r1, c1)`, `(r2, c2)`, ...
    The pure functions below say what parsing produces; the class
    MovingAIMap is the object the parser fills in place, and its methods are
    proved to produce exactly that. */
module MovingAIParser {
  import opened Text

  /** A coordinate pair as the parser reads it from a `key` line. */
  type Coord = (int, int)

  /** The Python exceptions parsing can raise. */
  datatype Error = IndexError | ValueError

  datatype Result<T> = Ok(value: T) | Err(error: Error)

  /** Completion of a method that changes state: it returns, or it raises. */
  datatype Outcome = Pass | Fail(error: Error)

  /** First argument of a template `key` line, skipped by the parser. */
  const Placeholder := "$key$"

  /** The tile that blocks movement. */
  const WallTile := '@'

  /** `zip(v[::2], v[1::2])`: the values taken two at a time; an odd trailing
      value has no partner and is dropped. */
  function Pairwise(v: seq<int>): (pairs: seq<Coord>)
    ensures |pairs| == |v| / 2
    ensures forall i :: 0 <= i < |pairs| ==> pairs[i] == (v[2 * i], v[2 * i + 1])
    decreases |v|
  {
    if |v| < 2 then [] else [(v[0], v[1])] + Pairwise(v[2..])
  }

  /** `[int(v) for v in values]`, failing with ValueError on the first
      token that is not an integer. */
  function ParseInts(values: seq<string>): (r: Result<seq<int>>)
    ensures r.Ok? <==> forall i :: 0 <= i < |values| ==> ParseInt(values[i]).Some?
    ensures r.Ok? ==> |r.value| == |values|
    ensures r.Ok? ==> forall i :: 0 <= i < |values| ==> r.value[i] == ParseInt(values[i]).value
    ensures r.Err? ==> r.error == ValueError
    decreases |values|
  {
    if |values| == 0 then Ok([])
    else match ParseInt(values[0])
      case None => Err(ValueError)
      case Some(n) =>
        match ParseInts(values[1..])
        case Err(e) => Err(e)
        case Ok(ns) =>
          assert forall i :: 1 <= i < |values| ==> values[i] == values[1..][i - 1];
          Ok([n] + ns)
  }

  /** The `doors` dictionary: a Python dict from key coordinate to the list
      of doors it unlocks. `order` is its insertion order, which Python
      dicts keep and `find_key` observes. */
  datatype DoorTable = DoorTable(order: seq<Coord>, lists: map<Coord, seq<Coord>>)
  {
    /** Every key appears once in the insertion order, and only keys do. */
    ghost predicate Valid()
    {
      && (forall i, j :: 0 <= i < j < |order| ==> order[i] != order[j])
      && (forall k :: k in lists <==> k in order)
    }

    /** `doors[k] = v`: a new key goes to the end of the insertion order; an
        existing key keeps its place and has its list replaced. */
    function Set(k: Coord, v: seq<Coord>): (t: DoorTable)
      requires Valid()
      ensures t.Valid()
      ensures k in t.lists && t.lists[k] == v
      ensures forall k' :: k' != k ==> (k' in t.lists <==> k' in lists)
      ensures forall k' :: k' != k && k' in lists ==> t.lists[k'] == lists[k']
      ensures k in lists ==> t.order == order
      ensures k !in lists ==> t.order == order + [k]
    {
      DoorTable(if k in lists then order else order + [k], lists[k := v])
    }
  }

  /** The empty dict `{}`. */
  const NoDoors := DoorTable([], map[])

  /** `_parse_keys(values)` as a function of the door table it updates. */
  function ApplyKeyLine(doors: DoorTable, values: seq<string>): (r: Result<DoorTable>)
    requires doors.Valid()
    // The template placeholder leaves the table as it was.
    ensures |values| > 0 && values[0] == Placeholder ==> r == Ok(doors)
    // It fails exactly when there are no arguments, or (not a placeholder)
    // a token is not an integer or there are fewer than two of them.
    ensures r.Err? <==>
      |values| == 0 || (values[0] != Placeholder && (ParseInts(values).Err? || |values| < 2))
    ensures r.Err? ==> (r.error == ValueError <==> |values| > 0 && ParseInts(values).Err?)
    ensures r.Ok? ==> r.value.Valid()
  {
    if |values| == 0 then Err(IndexError)
    else if values[0] == Placeholder then Ok(doors)
    else match ParseInts(values)
      case Err(e) => Err(e)
      case Ok(ints) =>
        var pairs := Pairwise(ints);
        if |pairs| == 0 then Err(IndexError)
        else Ok(doors.Set(pairs[0], pairs[1..]))
  }

  /** The fields of a MovingAIMap, as a value. */
  datatype MapState = MapState(
    matrix: seq<string>,
    height: int,
    width: int,
    mapType: string,
    doors: DoorTable)
  {
    /** Every cell `matrix[r][c]` with `0 <= r < height` and `0 <= c < width`
        exists, so the queries that visit the whole grid cannot fail. */
    predicate InBounds()
    {
      width <= 0 || (height <= |matrix| && forall r :: 0 <= r < height ==> width <= |matrix[r]|)
    }
  }

  /** The state `__init__` sets up before it reads the header. */
  function InitialState(matrix: seq<string>): (s: MapState)
    requires |matrix| > 0
    ensures s.doors.Valid()
    ensures s.matrix == matrix && s.height == |matrix| && s.width == |matrix[0]|
    ensures s.mapType == "unknown" && s.doors == NoDoors
  {
    MapState(matrix, |matrix|, |matrix[0]|, "unknown", NoDoors)
  }

  /** The command word of a header line: the text before its first space. */
  function Command(line: string): (command: string)
    ensures ' ' !in command
    ensures command == line || (|command| < |line| && line[..|command| + 1] == command + " ")
  {
    Split(line, ' ')[0]
  }

  /** The arguments of a header line: the pieces after its first space. */
  function Args(line: string): (args: seq<string>)
    ensures forall i :: 0 <= i < |args| ==> ' ' !in args[i]
    ensures Join([Command(line)] + args, ' ') == line
  {
    var pieces := Split(line, ' ');
    assert [pieces[0]] + pieces[1..] == pieces;
    pieces[1..]
  }

  /** One iteration of `_parse_header`. */
  function ApplyHeaderLine(s: MapState, line: string): (r: Result<MapState>)
    requires s.doors.Valid()
    ensures r.Ok? ==> r.value.matrix == s.matrix && r.value.doors.Valid()
    ensures r.Ok? && Command(line) != "height" ==> r.value.height == s.height
    ensures r.Ok? && Command(line) != "width" ==> r.value.width == s.width
    ensures r.Ok? && Command(line) != "type" ==> r.value.mapType == s.mapType
    ensures r.Ok? && Command(line) != "key" ==> r.value.doors == s.doors
    // Commands the parser does not know change nothing.
    ensures Command(line) !in {"height", "width", "type", "key"} ==> r == Ok(s)
    // A known command without an argument raises IndexError at `values[0]`.
    ensures (Command(line) == "height" || Command(line) == "width" || Command(line) == "type") && |Args(line)| == 0
      ==> r == Err(IndexError)
    // `int()` of a non-integer argument raises ValueError.
    ensures (Command(line) == "height" || Command(line) == "width") && |Args(line)| > 0 && ParseInt(Args(line)[0]).None?
      ==> r == Err(ValueError)
    ensures Command(line) == "height" && |Args(line)| > 0 && ParseInt(Args(line)[0]).Some?
      ==> r == Ok(s.(height := ParseInt(Args(line)[0]).value))
    ensures Command(line) == "width" && |Args(line)| > 0 && ParseInt(Args(line)[0]).Some?
      ==> r == Ok(s.(width := ParseInt(Args(line)[0]).value))
    ensures Command(line) == "type" && |Args(line)| > 0 ==> r == Ok(s.(mapType := Args(line)[0]))
    // A `key` line is `_parse_keys` on its arguments.
    ensures Command(line) == "key" ==> r == match ApplyKeyLine(s.doors, Args(line))
      case Err(e) => Err(e)
      case Ok(d) => Ok(s.(doors := d))
  {
    var tokens := Split(line, ' ');
    var command, values := tokens[0], tokens[1..];
    if command == "height" then
      if |values| == 0 then Err(IndexError)
      else match ParseInt(values[0])
        case None => Err(ValueError)
        case Some(n) => Ok(s.(height := n))
    else if command == "width" then
      if |values| == 0 then Err(IndexError)
      else match ParseInt(values[0])
        case None => Err(ValueError)
        case Some(n) => Ok(s.(width := n))
    else if command == "type" then
      if |values| == 0 then Err(IndexError)
      else Ok(s.(mapType := values[0]))
    else if command == "key" then
      match ApplyKeyLine(s.doors, values)
      case Err(e) => Err(e)
      case Ok(d) => Ok(s.(doors := d))
    else Ok(s)
  }

  /** `_parse_header(header)`: the lines applied in order, stopping at the
      first that raises. */
  function ApplyHeader(s: MapState, header: seq<string>): (r: Result<MapState>)
    requires s.doors.Valid()
    ensures r.Ok? ==> r.value.matrix == s.matrix && r.value.doors.Valid()
    decreases |header|
  {
    if |header| == 0 then Ok(s)
    else match ApplyHeader(s, header[..|header| - 1])
      case Err(e) => Err(e)
      case Ok(t) => ApplyHeaderLine(t, header[|header| - 1])
  }

  /** `MovingAIMap(header, map_matrix)`: defaults from the matrix, then the
      header replayed over them; an empty matrix raises IndexError. */
  function NewMap(header: seq<string>, matrix: seq<string>): (r: Result<MapState>)
    ensures |matrix| == 0 ==> r == Err(IndexError)
    ensures r.Ok? ==> r.value.matrix == matrix && r.value.doors.Valid()
  {
    if |matrix| == 0 then Err(IndexError)
    else ApplyHeader(InitialState(matrix), header)
  }

  /** The `takewhile`/`dropwhile` split of `parse_map`: the lines before the
      first `map` line, and the lines after it. */
  function SplitAtMap(lines: seq<string>): (r: (seq<string>, seq<string>))
    ensures "map" !in r.0
    ensures "map" in lines ==> lines == r.0 + ["map"] + r.1
    ensures "map" !in lines ==> r.0 == lines && r.1 == []
    decreases |lines|
  {
    if |lines| == 0 then ([], [])
    else if lines[0] == "map" then ([], lines[1..])
    else
      var rest := SplitAtMap(lines[1..]);
      assert lines == [lines[0]] + lines[1..];
      ([lines[0]] + rest.0, rest.1)
  }

  /** `parse_map` on the text of a map file. */
  function ParseMapText(text: string): (r: Result<MapState>)
    ensures r.Ok? ==> r.value.matrix == SplitAtMap(Split(text, '\n')).1
  {
    var parts := SplitAtMap(Split(text, '\n'));
    NewMap(parts.0, parts.1)
  }

  /** Index of the first key, in insertion order, whose door list holds `p`;
      `|order|` when there is none. */
  function FirstHolder(order: seq<Coord>, lists: map<Coord, seq<Coord>>, p: Coord): (i: nat)
    requires forall j :: 0 <= j < |order| ==> order[j] in lists
    ensures i <= |order|
    ensures i < |order| ==> p in lists[order[i]]
    ensures forall j :: 0 <= j < i ==> p !in lists[order[j]]
    decreases |order|
  {
    if |order| == 0 then 0
    else if p in lists[order[0]] then 0
    else 1 + FirstHolder(order[1..], lists, p)
  }

  /** Python's resolution of the index `i` into a sequence of length `n`:
      a negative index counts from the end; None where Python raises
      IndexError. */
  function ResolveIndex(i: int, n: int): (j: Option<int>)
    ensures j.Some? <==> -n <= i < n
    ensures 0 <= i < n ==> j == Some(i)
    ensures -n <= i < 0 ==> j == Some(i + n)
  {
    if 0 <= i < n then Some(i) else if -n <= i < 0 then Some(i + n) else None
  }

  /** `(a, b)` comes strictly before `(a', b')` in the order of `all_free`:
      by first component, then by second. */
  predicate Before(p: Coord, q: Coord)
  {
    p.0 < q.0 || (p.0 == q.0 && p.1 < q.1)
  }

  /** A MovingAI map: the matrix of tiles (rows of characters), its declared
      height, width and type, and the key-to-doors table. */
  class MovingAIMap {
    var matrix: seq<string>
    var height: int
    var width: int
    var mapType: string
    var doors: DoorTable

    ghost predicate Valid()
      reads this
    {
      doors.Valid()
    }

    function State(): (st: MapState)
      reads this
    {
      MapState(matrix, height, width, mapType, doors)
    }

    /** The defaults `__init__` derives from the matrix before it reads the
        header. */
    constructor (mapMatrix: seq<string>)
      requires |mapMatrix| > 0
      ensures Valid() && State() == InitialState(mapMatrix)
    {
      matrix := mapMatrix;
      height := |mapMatrix|;
      width := |mapMatrix[0]|;
      mapType := "unknown";
      doors := NoDoors;
    }

    /** `MovingAIMap(header, map_matrix)`, raising where `__init__` raises. */
    static method Create(header: seq<string>, mapMatrix: seq<string>) returns (r: Result<MovingAIMap>)
      ensures r.Ok? <==> NewMap(header, mapMatrix).Ok?
      ensures r.Err? ==> r.error == NewMap(header, mapMatrix).error
      ensures r.Ok? ==> fresh(r.value) && r.value.Valid()
      ensures r.Ok? ==> r.value.State() == NewMap(header, mapMatrix).value
    {
      if |mapMatrix| == 0 {
        return Err(IndexError);
      }
      var m := new MovingAIMap(mapMatrix);
      var outcome := m.ParseHeader(header);
      if outcome.Fail? {
        return Err(outcome.error);
      }
      return Ok(m);
    }

    /** `_parse_header`: replays the header commands over the current fields.
        When it raises, the object is abandoned by its caller, so its fields
        are left unspecified. */
    method ParseHeader(header: seq<string>) returns (outcome: Outcome)
      requires Valid()
      modifies this
      ensures outcome.Pass? <==> ApplyHeader(old(State()), header).Ok?
      ensures outcome.Fail? ==> outcome.error == ApplyHeader(old(State()), header).error
      ensures outcome.Pass? ==> Valid() && State() == ApplyHeader(old(State()), header).value
    {
      ghost var start := State();
      var i := 0;
      while i < |header|
        invariant 0 <= i <= |header|
        invariant Valid()
        invariant ApplyHeader(start, header[..i]) == Ok(State())
      {
        assert header[..i + 1][..i] == header[..i];
        var lineOutcome := ParseHeaderLine(header[i]);
        if lineOutcome.Fail? {
          ApplyHeaderErrorSticks(start, header, i + 1);
          return lineOutcome;
        }
        i := i + 1;
      }
      assert header[..|header|] == header;
      return Pass;
    }

    /** One iteration of the loop of `_parse_header`: the command word and
        its arguments, then the field the command names. */
    method ParseHeaderLine(line: string) returns (outcome: Outcome)
      requires Valid()
      modifies this
      ensures outcome.Pass? <==> ApplyHeaderLine(old(State()), line).Ok?
      ensures outcome.Fail? ==> outcome.error == ApplyHeaderLine(old(State()), line).error
      // Every raise comes before the assignment, so a failing line changes nothing.
      ensures outcome.Fail? ==> State() == old(State())
      ensures outcome.Pass? ==> Valid() && State() == ApplyHeaderLine(old(State()), line).value
    {
      var tokens := Split(line, ' ');
      var command, values := tokens[0], tokens[1..];
      if command == "height" {
        if |values| == 0 {
          return Fail(IndexError);
        }
        var n := ParseInt(values[0]);
        if n.None? {
          return Fail(ValueError);
        }
        height := n.value;
      } else if command == "width" {
        if |values| == 0 {
          return Fail(IndexError);
        }
        var n := ParseInt(values[0]);
        if n.None? {
          return Fail(ValueError);
        }
        width := n.value;
      } else if command == "type" {
        if |values| == 0 {
          return Fail(IndexError);
        }
        mapType := values[0];
      } else if command == "key" {
        outcome := ParseKeys(values);
        return;
      }
      return Pass;
    }

    /** `_parse_keys`: records the doors of a `key` line, unless the line is
        a template placeholder. */
    method ParseKeys(values: seq<string>) returns (outcome: Outcome)
      requires Valid()
      modifies this`doors
      ensures outcome.Pass? <==> ApplyKeyLine(old(doors), values).Ok?
      ensures outcome.Fail? ==> outcome.error == ApplyKeyLine(old(doors), values).error
      ensures outcome.Fail? ==> doors == old(doors)
      ensures outcome.Pass? ==> Valid() && doors == ApplyKeyLine(old(doors), values).value
    {
      if |values| == 0 {
        return Fail(IndexError);
      }
      if values[0] == Placeholder {
        return Pass;
      }
      var ints := ParseInts(values);
      if ints.Err? {
        return Fail(ints.error);
      }
      var pairs := Pairwise(ints.value);
      if |pairs| == 0 {
        return Fail(IndexError);
      }
      doors := doors.Set(pairs[0], pairs[1..]);
      return Pass;
    }

    /** `is_key(r, c)`: `(r, c)` is a key of the table. */
    predicate IsKey(r: int, c: int)
      reads this
      requires Valid()
      ensures IsKey(r, c) <==> (r, c) in doors.order
    {
      (r, c) in doors.lists
    }

    /** `is_door(r, c)`: `(r, c)` is in the door list of some key. */
    predicate IsDoor(r: int, c: int)
      reads this
      requires Valid()
      ensures IsDoor(r, c) <==>
        exists i :: 0 <= i < |doors.order| && (r, c) in doors.lists[doors.order[i]]
    {
      exists v :: v in doors.lists.Values && (r, c) in v
    }

    /** `find_key(r, c)`: the first key, in insertion order, that unlocks the
        door `(r, c)`; None when `(r, c)` is not a door. */
    function FindKey(r: int, c: int): (k: Option<Coord>)
      reads this
      requires Valid()
      ensures k.None? <==> !IsDoor(r, c)
      ensures k.Some? ==>
        exists i :: 0 <= i < |doors.order| && doors.order[i] == k.value
          && (r, c) in doors.lists[k.value]
          && forall j :: 0 <= j < i ==> (r, c) !in doors.lists[doors.order[j]]
    {
      var i := FirstHolder(doors.order, doors.lists, (r, c));
      if IsDoor(r, c) && i < |doors.order| then Some(doors.order[i]) else None
    }

    /** `matrix[r][c]`, with Python's indexing: negative indices count from
        the end, and an index outside the matrix or the row raises
        IndexError. */
    function Cell(r: int, c: int): (t: Result<char>)
      reads this
      ensures t.Err? ==> t.error == IndexError
      ensures !(-|matrix| <= r < |matrix|) ==> t.Err?
      ensures 0 <= r < |matrix| ==> (t.Ok? <==> -|matrix[r]| <= c < |matrix[r]|)
      ensures -|matrix| <= r < 0 ==> (t.Ok? <==> -|matrix[r + |matrix|]| <= c < |matrix[r + |matrix|]|)
      ensures 0 <= r < |matrix| && 0 <= c < |matrix[r]| ==> t == Ok(matrix[r][c])
      ensures 0 <= r < |matrix| && -|matrix[r]| <= c < 0 ==> t == Ok(matrix[r][c + |matrix[r]|])
      ensures -|matrix| <= r < 0 && 0 <= c < |matrix[r + |matrix|]| ==> t == Ok(matrix[r + |matrix|][c])
      ensures -|matrix| <= r < 0 && -|matrix[r + |matrix|]| <= c < 0
        ==> t == Ok(matrix[r + |matrix|][c + |matrix[r + |matrix|]|])
    {
      match ResolveIndex(r, |matrix|)
      case None => Err(IndexError)
      case Some(row) =>
        match ResolveIndex(c, |matrix[row]|)
        case None => Err(IndexError)
        case Some(col) => Ok(matrix[row][col])
    }

    /** `is_free(r, c)`: the tile `matrix[r][c]` is not a wall and no key
        unlocks `(r, c)`; reading the tile raises first when it does not
        exist. A key cell on open ground is free. */
    function IsFree(r: int, c: int): (free: Result<bool>)
      reads this
      requires Valid()
      ensures free.Err? <==> Cell(r, c).Err?
      ensures free.Err? ==> free.error == IndexError
      ensures free.Ok? ==> (free.value <==> Cell(r, c).value != WallTile && FindKey(r, c).None?)
    {
      match Cell(r, c)
      case Err(e) => Err(e)
      case Ok(tile) => Ok(tile != WallTile && !IsDoor(r, c))
    }

    /** The free cells of column `c` among rows `0 .. n - 1`, as `(c, r)`
        pairs, top to bottom. */
    function FreeInColumn(c: int, n: int): (free: seq<Coord>)
      reads this
      requires Valid() && State().InBounds()
      requires 0 <= c < width && n <= height
      ensures forall p :: p in free <==> p.0 == c && 0 <= p.1 < n && IsFree(p.1, p.0) == Ok(true)
      ensures forall i, j :: 0 <= i < j < |free| ==> Before(free[i], free[j])
      decreases n
    {
      if n <= 0 then []
      else FreeInColumn(c, n - 1) + (if IsFree(n - 1, c) == Ok(true) then [(c, n - 1)] else [])
    }

    /** The free cells of columns `0 .. n - 1`, column after column. */
    function FreeInColumns(n: int): (free: seq<Coord>)
      reads this
      requires Valid() && State().InBounds()
      requires n <= width
      ensures forall p :: p in free <==>
        0 <= p.0 < n && 0 <= p.1 < height && IsFree(p.1, p.0) == Ok(true)
      ensures forall i, j :: 0 <= i < j < |free| ==> Before(free[i], free[j])
      decreases n
    {
      if n <= 0 then []
      else FreeInColumns(n - 1) + FreeInColumn(n - 1, height)
    }

    /** `all_free()`: every free cell as a `(c, r)` pair, columns outside and
        rows inside, so strictly increasing by column, then row (hence
        without repetitions). It raises IndexError exactly when one of the
        cells it visits, `c < width` and `r < height`, does not exist. */
    function AllFree(): (r: Result<seq<Coord>>)
      reads this
      requires Valid()
      ensures r.Err? <==> exists c, row :: 0 <= c < width && 0 <= row < height && Cell(row, c).Err?
      ensures r.Err? ==> r.error == IndexError
      ensures r.Ok? ==> forall p :: p in r.value <==>
        0 <= p.0 < width && 0 <= p.1 < height && IsFree(p.1, p.0) == Ok(true)
      ensures r.Ok? ==> forall i, j :: 0 <= i < j < |r.value| ==> Before(r.value[i], r.value[j])
    {
      if State().InBounds() then
        Ok(FreeInColumns(width))
      else
        MissingCell();
        Err(IndexError)
    }

    /** A grid whose declared size overruns the matrix has a cell, among
        those `all_free` and `movingai2img` visit, that does not exist. */
    lemma MissingCell()
      requires !State().InBounds()
      ensures exists c, row :: 0 <= c < width && 0 <= row < height && Cell(row, c).Err?
    {
      if height > |matrix| {
        assert Cell(|matrix|, 0).Err?;
      } else {
        var row :| 0 <= row < height && width > |matrix[row]|;
        assert Cell(row, width - 1).Err?;
      }
    }

    /** `random_free()`: a one-element list holding some free cell. Which one
        is left open (the source draws it uniformly at random). `all_free`
        raises first; with no free cell, `random.sample` raises ValueError. */
    method RandomFree() returns (r: Result<seq<Coord>>)
      requires Valid()
      ensures AllFree().Err? ==> r == Err(IndexError)
      ensures AllFree().Ok? ==> (r.Err? <==> |AllFree().value| == 0)
      ensures AllFree().Ok? && r.Err? ==> r.error == ValueError
      ensures r.Ok? ==> |r.value| == 1 && AllFree().Ok? && r.value[0] in AllFree().value
    {
      var all := AllFree();
      if all.Err? {
        return Err(all.error);
      }
      var free := all.value;
      if |free| == 0 {
        return Err(ValueError);
      }
      var i :| 0 <= i < |free|;
      return Ok([free[i]]);
    }
  }

  /** Once a prefix of the header raises, the whole header raises the same
      error. */
  lemma ApplyHeaderErrorSticks(s: MapState, header: seq<string>, k: nat)
    requires s.doors.Valid()
    requires k <= |header|
    requires ApplyHeader(s, header[..k]).Err?
    ensures ApplyHeader(s, header) == ApplyHeader(s, header[..k])
    decreases |header| - k
  {
    if k < |header| {
      assert header[..k + 1][..k] == header[..k];
      ApplyHeaderErrorSticks(s, header, k + 1);
    } else {
      assert header[..k] == header;
    }
  }

  /** `parse_map(path)`, on the text of the file. */
  method ParseMap(text: string) returns (r: Result<MovingAIMap>)
    ensures r.Ok? <==> ParseMapText(text).Ok?
    ensures r.Err? ==> r.error == ParseMapText(text).error
    ensures r.Ok? ==> fresh(r.value) && r.value.Valid()
    ensures r.Ok? ==> r.value.State() == ParseMapText(text).value
  {
    var lines := Split(text, '\n');
    var parts := SplitAtMap(lines);
    r := MovingAIMap.Create(parts.0, parts.1);
  }
}
