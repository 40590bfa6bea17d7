/** What the map text written for an image looks like line by line, and the
    round trip image -> map text -> parsed map -> image. */
module ConversionProperties {
  import opened Text
  import opened MovingAIParser
  import opened ParserProperties
  import opened Img2MovingAI

  /** The text written for a `width` by `height` image is, line by line: the
      type, height and width lines, the `map` line, then `height` lines of
      `width` tiles, tile `x` of line `y` being the tile of pixel `(x, y)`;
      after the final newline nothing follows. */
  lemma MapTextLayout(pixels: seq<seq<Rgb>>, width: nat, height: nat)
    requires IsGrid(pixels, width, height)
    ensures var lines := Split(MapText(pixels, width, height), '\n');
      && |lines| == height + 5
      && lines[0] == "type octile"
      && lines[1] == "height " + NatToString(height)
      && lines[2] == "width " + NatToString(width)
      && lines[3] == "map"
      && (forall y :: 4 <= y < height + 4 ==> |lines[y]| == width)
      && (forall y, x :: 4 <= y < height + 4 && 0 <= x < width ==> lines[y][x] == ColorToChar(pixels[x][y - 4]))
      && lines[height + 4] == ""
  {
    MapLinesWithoutNewlines(pixels, width, height);
    SplitTerminated(MapLines(pixels, width, height));
  }

  /** `cmd + " " + arg` splits into the command and its one argument. */
  lemma SplitCommandLine(cmd: string, arg: string)
    requires ' ' !in cmd && ' ' !in arg
    ensures Split(cmd + " " + arg, ' ') == [cmd, arg]
  {
    SplitAtSeparator(cmd, ' ', arg);
    SplitWithoutSeparator(arg, ' ');
    assert cmd + " " + arg == cmd + [' '] + arg;
  }

  /** `str(n)` holds no space. */
  lemma NoSpaceInNumber(n: nat)
    ensures ' ' !in NatToString(n)
  {
    var s := NatToString(n);
    assert forall k :: 0 <= k < |s| ==> IsDigit(s[k]);
  }

  /** `type octile` sets the type. */
  lemma TypeLineParses(s: MapState)
    requires s.doors.Valid()
    ensures ApplyHeaderLine(s, "type octile") == Ok(s.(mapType := "octile"))
  {
    assert "type octile" == "type" + " " + "octile";
    SplitCommandLine("type", "octile");
  }

  /** `height <str(n)>` sets the height to n. */
  lemma HeightLineParses(s: MapState, n: nat)
    requires s.doors.Valid()
    ensures ApplyHeaderLine(s, "height " + NatToString(n)) == Ok(s.(height := n))
  {
    NoSpaceInNumber(n);
    assert "height " + NatToString(n) == "height" + " " + NatToString(n);
    SplitCommandLine("height", NatToString(n));
    ParseIntNatToString(n);
  }

  /** `width <str(n)>` sets the width to n. */
  lemma WidthLineParses(s: MapState, n: nat)
    requires s.doors.Valid()
    ensures ApplyHeaderLine(s, "width " + NatToString(n)) == Ok(s.(width := n))
  {
    NoSpaceInNumber(n);
    assert "width " + NatToString(n) == "width" + " " + NatToString(n);
    SplitCommandLine("width", NatToString(n));
    ParseIntNatToString(n);
  }

  /** A replay whose last line does not raise. */
  lemma HeaderStep(s: MapState, header: seq<string>, t: MapState, u: MapState)
    requires s.doors.Valid() && |header| > 0
    requires ApplyHeader(s, header[..|header| - 1]) == Ok(t)
    requires ApplyHeaderLine(t, header[|header| - 1]) == Ok(u)
    ensures ApplyHeader(s, header) == Ok(u)
  {
  }

  /** Three header lines that do not raise, replayed in turn. */
  lemma ThreeHeaderLines(s0: MapState, header: seq<string>, s1: MapState, s2: MapState, s3: MapState)
    requires s0.doors.Valid() && |header| == 3
    requires ApplyHeaderLine(s0, header[0]) == Ok(s1)
    requires ApplyHeaderLine(s1, header[1]) == Ok(s2)
    requires ApplyHeaderLine(s2, header[2]) == Ok(s3)
    ensures ApplyHeader(s0, header) == Ok(s3)
  {
    var h1, h2 := header[..1], header[..2];
    assert h1[..0] == [] && h1[0] == header[0];
    HeaderStep(s0, h1, s0, s1);
    assert h2[..1] == h1 && h2[1] == header[1];
    HeaderStep(s0, h2, s1, s2);
    assert header[..2] == h2;
    HeaderStep(s0, header, s2, s3);
  }

  /** The header written for an image parses back to its type, height and
      width, over the defaults of any matrix. */
  lemma WrittenHeaderParses(matrix: seq<string>, width: nat, height: nat)
    requires |matrix| > 0
    ensures ApplyHeader(InitialState(matrix),
        ["type octile", "height " + NatToString(height), "width " + NatToString(width)])
      == Ok(MapState(matrix, height, width, "octile", NoDoors))
  {
    var header := ["type octile", "height " + NatToString(height), "width " + NatToString(width)];
    var s0 := InitialState(matrix);
    var s1 := s0.(mapType := "octile");
    var s2 := s1.(height := height);
    TypeLineParses(s0);
    HeightLineParses(s1, height);
    WidthLineParses(s2, width);
    ThreeHeaderLines(s0, header, s1, s2, s2.(width := width));
  }

  /** The text written for an image parses to its type, height and width,
      no doors, and a matrix of its rows followed by the empty line after the
      final newline. */
  lemma WrittenTextParses(pixels: seq<seq<Rgb>>, width: nat, height: nat)
    requires IsGrid(pixels, width, height)
    ensures ParseMapText(MapText(pixels, width, height))
      == Ok(MapState(MapLines(pixels, width, height)[4..] + [""], height, width, "octile", NoDoors))
  {
    var lines := MapLines(pixels, width, height);
    var header := ["type octile", "height " + NatToString(height), "width " + NatToString(width)];
    var rows := lines[4..] + [""];
    assert lines + [""] == header + ["map"] + rows;
    assert Split(MapText(pixels, width, height), '\n') == header + ["map"] + rows by {
      MapLinesWithoutNewlines(pixels, width, height);
      SplitTerminated(lines);
    }
    assert "map" !in header by {
      assert header[1][0] == 'h' && header[2][0] == 'w' && |header[0]| != 3;
    }
    assert SplitAtMap(header + ["map"] + rows) == (header, rows) by {
      SplitAtFirstMap(header, rows);
    }
    assert NewMap(header, rows) == ApplyHeader(InitialState(rows), header);
    WrittenHeaderParses(rows, width, height);
  }

  /** An image whose pixels all have table colours, written as map text and
      parsed back, has its own width and height, type `octile`, no doors,
      a matrix covering the grid, and paints back to the same pixels. */
  lemma ImageTextRoundTrip(pixels: seq<seq<Rgb>>, width: nat, height: nat)
    requires IsGrid(pixels, width, height)
    requires forall x, y :: 0 <= x < width && 0 <= y < height ==> pixels[x][y] in ColorMap.Values
    ensures var r := ParseMapText(MapText(pixels, width, height));
      && r.Ok?
      && r.value.width == width && r.value.height == height
      && r.value.mapType == "octile" && r.value.doors == NoDoors
      && r.value.InBounds()
      && ImageOf(r.value) == pixels
  {
    WrittenTextParses(pixels, width, height);
    var rows := MapLines(pixels, width, height)[4..] + [""];
    var st := MapState(rows, height, width, "octile", NoDoors);
    assert forall y :: 0 <= y < height ==> rows[y] == RowText(pixels, height, y);
    assert st.InBounds();
    forall x | 0 <= x < width
      ensures ImageOf(st)[x] == pixels[x]
    {
      forall y | 0 <= y < height
        ensures ImageOf(st)[x][y] == pixels[x][y]
      {
        assert rows[y][x] == ColorToChar(pixels[x][y]);
        ColorRoundTrip(pixels[x][y]);
      }
    }
  }
}
