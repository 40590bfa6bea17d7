/** Properties of the MovingAI parser that relate several calls or several
    header lines: how `key` lines fill the door table, which header line
    decides each field, and where `parse_map` cuts the file. */
module ParserProperties {
  import opened Text
  import opened MovingAIParser

  /** A `key` line that is not a placeholder and carries at least two
      integers sets the door list of its first pair to the remaining pairs,
      and leaves every other key as it was. */
  lemma KeyLineEffect(doors: DoorTable, values: seq<string>)
    requires doors.Valid()
    requires |values| >= 2 && values[0] != Placeholder
    requires ParseInts(values).Ok?
    ensures var r := ApplyKeyLine(doors, values);
      var ints := ParseInts(values).value;
      var key := (ints[0], ints[1]);
      && r.Ok?
      && key in r.value.lists
      && |r.value.lists[key]| == (|values| - 2) / 2
      && (forall i :: 0 <= i < |r.value.lists[key]| ==>
            r.value.lists[key][i] == (ints[2 * i + 2], ints[2 * i + 3]))
      && (forall k :: k != key ==> (k in r.value.lists <==> k in doors.lists))
      && (forall k :: k != key && k in doors.lists ==> r.value.lists[k] == doors.lists[k])
  {
    var ints := ParseInts(values).value;
    var pairs := Pairwise(ints);
    assert pairs[0] == (ints[0], ints[1]);
    forall i | 0 <= i < |pairs| - 1
      ensures pairs[1..][i] == (ints[2 * i + 2], ints[2 * i + 3])
    {
      assert pairs[i + 1] == (ints[2 * (i + 1)], ints[2 * (i + 1) + 1]);
    }
  }

  /** A second assignment to the same key replaces its door list and keeps
      the key where it was in the insertion order. */
  lemma SecondKeyLineReplaces(doors: DoorTable, k: Coord, first: seq<Coord>, second: seq<Coord>)
    requires doors.Valid()
    ensures doors.Set(k, first).Set(k, second) == doors.Set(k, second)
  {
    assert doors.lists[k := first][k := second] == doors.lists[k := second];
  }

  /** A key line of integers records its first pair as a key with the
      remaining pairs as its doors. */
  lemma KeyLineOfInts(doors: DoorTable, values: seq<string>, ints: seq<int>)
    requires doors.Valid()
    requires |values| >= 2 && values[0] != Placeholder
    requires ParseInts(values) == Ok(ints)
    ensures ApplyKeyLine(doors, values) == Ok(doors.Set(Pairwise(ints)[0], Pairwise(ints)[1..]))
  {
  }

  /** `int()` of a single digit. */
  lemma ParseDigit(d: char)
    requires IsDigit(d)
    ensures ParseInt([d]) == Some(d as int - '0' as int)
  {
    assert [d][..0] == "";
    assert IsDigits([d]);
    assert DigitsValue([d]) == d as int - '0' as int;
  }

  /** `key 1 2 3`: the trailing 3 has no partner, so key (1, 2) is recorded
      with no doors and nothing is raised. */
  lemma OddTrailingValueDropped()
    ensures ApplyKeyLine(NoDoors, ["1", "2", "3"]) == Ok(DoorTable([(1, 2)], map[(1, 2) := []]))
  {
    var values := ["1", "2", "3"];
    ParseDigit('1'); ParseDigit('2'); ParseDigit('3');
    assert forall i :: 0 <= i < 3 ==> ParseInt(values[i]) == Some(i + 1);
    assert ParseInts(values).value == [1, 2, 3];
    assert Pairwise([1, 2, 3]) == [(1, 2)] by {
      assert [1, 2, 3][2..] == [3];
    }
    assert NoDoors.Set((1, 2), []) == DoorTable([(1, 2)], map[(1, 2) := []]);
  }

  /** `int()` of each of the tokens `1` to `6`. */
  lemma ParseOneToSix()
    ensures ParseInts(["1", "2", "3", "4", "5", "6"]) == Ok([1, 2, 3, 4, 5, 6])
  {
    var values := ["1", "2", "3", "4", "5", "6"];
    ParseDigit('1'); ParseDigit('2'); ParseDigit('3');
    ParseDigit('4'); ParseDigit('5'); ParseDigit('6');
    assert forall i :: 0 <= i < 6 ==> ParseInt(values[i]) == Some(i + 1);
    assert ParseInts(values).value == [1, 2, 3, 4, 5, 6];
  }

  /** `key 1 2 3 4 5 6`: key (1, 2) unlocks the doors (3, 4) and (5, 6). */
  lemma KeyWithTwoDoors()
    ensures ApplyKeyLine(NoDoors, ["1", "2", "3", "4", "5", "6"])
      == Ok(DoorTable([(1, 2)], map[(1, 2) := [(3, 4), (5, 6)]]))
  {
    ParseOneToSix();
    KeyLineOfInts(NoDoors, ["1", "2", "3", "4", "5", "6"], [1, 2, 3, 4, 5, 6]);
    PairsOfOneToSix();
    assert [(1, 2), (3, 4), (5, 6)][1..] == [(3, 4), (5, 6)];
    FirstKey((1, 2), [(3, 4), (5, 6)]);
  }

  /** The first key set in the empty table is its only key. */
  lemma FirstKey(k: Coord, v: seq<Coord>)
    ensures NoDoors.Set(k, v) == DoorTable([k], map[k := v])
  {
  }

  /** The pairs of `1` to `6`. */
  lemma PairsOfOneToSix()
    ensures Pairwise([1, 2, 3, 4, 5, 6]) == [(1, 2), (3, 4), (5, 6)]
  {
  }

  /** Replaying `a + b` is replaying `a`, then `b` on its result. */
  lemma {:induction false} ApplyHeaderAppend(s: MapState, a: seq<string>, b: seq<string>)
    requires s.doors.Valid()
    ensures ApplyHeader(s, a + b) ==
      match ApplyHeader(s, a)
      case Err(e) => Err(e)
      case Ok(t) => ApplyHeader(t, b)
    decreases |b|
  {
    if |b| == 0 {
      assert a + b == a;
    } else {
      assert (a + b)[..|a + b| - 1] == a + b[..|b| - 1];
      assert (a + b)[|a + b| - 1] == b[|b| - 1];
      ApplyHeaderAppend(s, a, b[..|b| - 1]);
    }
  }

  /** A field no header line names keeps the value it had before the
      header was replayed. */
  lemma {:induction false} UntouchedFields(s: MapState, header: seq<string>)
    requires s.doors.Valid()
    requires ApplyHeader(s, header).Ok?
    ensures (forall i :: 0 <= i < |header| ==> Command(header[i]) != "height") ==>
      ApplyHeader(s, header).value.height == s.height
    ensures (forall i :: 0 <= i < |header| ==> Command(header[i]) != "width") ==>
      ApplyHeader(s, header).value.width == s.width
    ensures (forall i :: 0 <= i < |header| ==> Command(header[i]) != "type") ==>
      ApplyHeader(s, header).value.mapType == s.mapType
    ensures (forall i :: 0 <= i < |header| ==> Command(header[i]) != "key") ==>
      ApplyHeader(s, header).value.doors == s.doors
    decreases |header|
  {
    if |header| > 0 {
      var prefix := header[..|header| - 1];
      assert forall i :: 0 <= i < |prefix| ==> prefix[i] == header[i];
      UntouchedFields(s, prefix);
    }
  }

  /** When the header replays without raising, the part after `line`
      starts from what `line` produced. */
  lemma ReplayThrough(s: MapState, before: seq<string>, line: string, after: seq<string>)
    requires s.doors.Valid()
    requires ApplyHeader(s, before + [line] + after).Ok?
    ensures ApplyHeader(s, before).Ok?
    ensures ApplyHeaderLine(ApplyHeader(s, before).value, line).Ok?
    ensures ApplyHeader(s, before + [line] + after)
      == ApplyHeader(ApplyHeaderLine(ApplyHeader(s, before).value, line).value, after)
  {
    assert before + [line] + after == (before + [line]) + after;
    ApplyHeaderAppend(s, before + [line], after);
    ApplyHeaderSnoc(s, before, line);
  }

  /** The last `height` line decides the height. */
  lemma LastHeightWins(s: MapState, before: seq<string>, line: string, after: seq<string>)
    requires s.doors.Valid()
    requires ApplyHeader(s, before + [line] + after).Ok?
    requires Command(line) == "height"
    requires forall i :: 0 <= i < |after| ==> Command(after[i]) != "height"
    ensures |Args(line)| > 0 && ParseInt(Args(line)[0]).Some?
    ensures ApplyHeader(s, before + [line] + after).value.height == ParseInt(Args(line)[0]).value
  {
    ReplayThrough(s, before, line, after);
    var t := ApplyHeader(s, before).value;
    LineSetsField(t, line);
    UntouchedFields(ApplyHeaderLine(t, line).value, after);
  }

  /** The last `width` line decides the width. */
  lemma LastWidthWins(s: MapState, before: seq<string>, line: string, after: seq<string>)
    requires s.doors.Valid()
    requires ApplyHeader(s, before + [line] + after).Ok?
    requires Command(line) == "width"
    requires forall i :: 0 <= i < |after| ==> Command(after[i]) != "width"
    ensures |Args(line)| > 0 && ParseInt(Args(line)[0]).Some?
    ensures ApplyHeader(s, before + [line] + after).value.width == ParseInt(Args(line)[0]).value
  {
    ReplayThrough(s, before, line, after);
    var t := ApplyHeader(s, before).value;
    LineSetsField(t, line);
    UntouchedFields(ApplyHeaderLine(t, line).value, after);
  }

  /** The last `type` line decides the type. */
  lemma LastTypeWins(s: MapState, before: seq<string>, line: string, after: seq<string>)
    requires s.doors.Valid()
    requires ApplyHeader(s, before + [line] + after).Ok?
    requires Command(line) == "type"
    requires forall i :: 0 <= i < |after| ==> Command(after[i]) != "type"
    ensures |Args(line)| > 0
    ensures ApplyHeader(s, before + [line] + after).value.mapType == Args(line)[0]
  {
    ReplayThrough(s, before, line, after);
    var t := ApplyHeader(s, before).value;
    LineSetsField(t, line);
    UntouchedFields(ApplyHeaderLine(t, line).value, after);
  }

  /** Replaying one more line applies it to the result so far. */
  lemma ApplyHeaderSnoc(s: MapState, header: seq<string>, line: string)
    requires s.doors.Valid()
    ensures ApplyHeader(s, header + [line]) ==
      match ApplyHeader(s, header)
      case Err(e) => Err(e)
      case Ok(t) => ApplyHeaderLine(t, line)
  {
    assert (header + [line])[..|header|] == header;
  }

  /** What a `height`, `width` or `type` line that does not raise sets. */
  lemma LineSetsField(s: MapState, line: string)
    requires s.doors.Valid()
    requires ApplyHeaderLine(s, line).Ok?
    ensures var t := ApplyHeaderLine(s, line).value;
      && (Command(line) == "height" ==>
            |Args(line)| > 0 && ParseInt(Args(line)[0]).Some? && t.height == ParseInt(Args(line)[0]).value)
      && (Command(line) == "width" ==>
            |Args(line)| > 0 && ParseInt(Args(line)[0]).Some? && t.width == ParseInt(Args(line)[0]).value)
      && (Command(line) == "type" ==>
            |Args(line)| > 0 && t.mapType == Args(line)[0])
  {
  }

  /** With no header line naming them, height is the number of matrix rows,
      width the length of row 0, the type `unknown`, and there are no doors. */
  lemma HeaderDefaults(header: seq<string>, matrix: seq<string>)
    requires NewMap(header, matrix).Ok?
    ensures |matrix| > 0
    ensures (forall i :: 0 <= i < |header| ==> Command(header[i]) != "height") ==>
      NewMap(header, matrix).value.height == |matrix|
    ensures (forall i :: 0 <= i < |header| ==> Command(header[i]) != "width") ==>
      NewMap(header, matrix).value.width == |matrix[0]|
    ensures (forall i :: 0 <= i < |header| ==> Command(header[i]) != "type") ==>
      NewMap(header, matrix).value.mapType == "unknown"
    ensures (forall i :: 0 <= i < |header| ==> Command(header[i]) != "key") ==>
      NewMap(header, matrix).value.doors == NoDoors
  {
    UntouchedFields(InitialState(matrix), header);
  }

  /** A `key` line whose first argument is the placeholder changes nothing. */
  lemma PlaceholderLineSkipped(s: MapState, line: string)
    requires s.doors.Valid()
    requires Command(line) == "key" && |Args(line)| > 0 && Args(line)[0] == Placeholder
    ensures ApplyHeaderLine(s, line) == Ok(s)
  {
  }

  /** The header is exactly the lines before the first `map` line and the
      matrix exactly the lines after it. */
  lemma {:induction false} SplitAtFirstMap(header: seq<string>, matrix: seq<string>)
    requires "map" !in header
    ensures SplitAtMap(header + ["map"] + matrix) == (header, matrix)
    decreases |header|
  {
    if |header| > 0 {
      assert (header + ["map"] + matrix)[1..] == header[1..] + ["map"] + matrix;
      SplitAtFirstMap(header[1..], matrix);
      assert [header[0]] + header[1..] == header;
    }
  }

  /** A file without a `map` line has an empty matrix, and building the map
      raises IndexError at `map_matrix[0]`. */
  lemma MissingMapLineFails(text: string)
    requires "map" !in Split(text, '\n')
    ensures ParseMapText(text) == Err(IndexError)
  {
  }
}
