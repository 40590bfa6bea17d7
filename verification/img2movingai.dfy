/** Conversion between a raster image and MovingAI map text (img2movingai.py).

    Every pixel is one map cell. A fixed three-entry colour table gives each
    tile character its colour; any colour or character outside the table is
    treated as a wall. An image is an `array2<Rgb>` indexed `[x, y]`, with
    `Length0` its width and `Length1` its height, as the pixel accessor of the
    image library is. */
module Img2MovingAI {
  import opened Text
  import opened MovingAIParser

  datatype Rgb = Rgb(red: int, green: int, blue: int)

  const WallColor := Rgb(0, 0, 0)
  const FreeColor := Rgb(255, 255, 255)
  const TreeColor := Rgb(0, 255, 0)

  /** `color_map`: the colour of each named terrain. */
  const ColorMap: map<string, Rgb> := map["WALL" := WallColor, "FREE" := FreeColor, "TREE" := TreeColor]

  /** The three terrains have three different colours, so the table can be
      read backwards, from colour to terrain. */
  lemma ColorTableInjective()
    ensures ColorMap.Keys == {"WALL", "FREE", "TREE"}
    ensures forall a, b :: a in ColorMap && b in ColorMap && a != b ==> ColorMap[a] != ColorMap[b]
  {
  }

  /** The tile characters the colour table knows. */
  const Tiles := "@.T"

  /** `color_to_char`: the tile of a pixel colour. The free and tree colours
      give `.` and `T`; the wall colour, and every colour outside the table,
      gives `@`. */
  function ColorToChar(color: Rgb): (ch: char)
    ensures ch in Tiles
    ensures ch == '.' <==> color == ColorMap["FREE"]
    ensures ch == 'T' <==> color == ColorMap["TREE"]
    ensures ch == '@' <==> color != ColorMap["FREE"] && color != ColorMap["TREE"]
  {
    if color == ColorMap["WALL"] then '@'
    else if color == ColorMap["FREE"] then '.'
    else if color == ColorMap["TREE"] then 'T'
    else '@'
  }

  /** `char_to_color`: the colour of a tile. `.` and `T` give the free and
      tree colours; `@`, and every character outside the table, gives the
      wall colour. */
  function CharToColor(ch: char): (color: Rgb)
    ensures color in ColorMap.Values
    ensures color == ColorMap["FREE"] <==> ch == '.'
    ensures color == ColorMap["TREE"] <==> ch == 'T'
    ensures color == ColorMap["WALL"] <==> ch != '.' && ch != 'T'
  {
    if ch == '@' then ColorMap["WALL"]
    else if ch == '.' then ColorMap["FREE"]
    else if ch == 'T' then ColorMap["TREE"]
    else ColorMap["WALL"]
  }

  /** A table colour survives the trip to a tile and back. */
  lemma ColorRoundTrip(color: Rgb)
    requires color in ColorMap.Values
    ensures CharToColor(ColorToChar(color)) == color
  {
  }

  /** A table tile survives the trip to a colour and back; any other
      character comes back as a wall. */
  lemma CharRoundTrip(ch: char)
    ensures ColorToChar(CharToColor(ch)) == if ch in Tiles then ch else '@'
  {
  }

  /** `pixels` is a `width` by `height` grid, indexed `[x][y]`. */
  predicate IsGrid(pixels: seq<seq<Rgb>>, width: nat, height: nat)
  {
    |pixels| == width && forall x :: 0 <= x < width ==> |pixels[x]| == height
  }

  /** The pixels of an image, as a grid. */
  function Pixels(img: array2<Rgb>): (pixels: seq<seq<Rgb>>)
    reads img
    ensures IsGrid(pixels, img.Length0, img.Length1)
    ensures forall x, y :: 0 <= x < img.Length0 && 0 <= y < img.Length1 ==> pixels[x][y] == img[x, y]
  {
    seq(img.Length0, x requires 0 <= x < img.Length0 reads img =>
      seq(img.Length1, y requires 0 <= y < img.Length1 reads img => img[x, y]))
  }

  /** Row `y` of the map: the tile of each pixel of that row, left to right. */
  function RowText(pixels: seq<seq<Rgb>>, height: nat, y: nat): (row: string)
    requires IsGrid(pixels, |pixels|, height) && y < height
    ensures |row| == |pixels|
    ensures forall x :: 0 <= x < |pixels| ==> row[x] == ColorToChar(pixels[x][y])
  {
    seq(|pixels|, x requires 0 <= x < |pixels| => ColorToChar(pixels[x][y]))
  }

  /** The lines `img2movingai` writes, without their newlines: the header,
      the `map` line, then one line per pixel row. */
  function MapLines(pixels: seq<seq<Rgb>>, width: nat, height: nat): (lines: seq<string>)
    requires IsGrid(pixels, width, height)
    ensures |lines| == height + 4
    ensures lines[..4] == ["type octile", "height " + NatToString(height), "width " + NatToString(width), "map"]
    ensures forall y :: 4 <= y < |lines| ==> lines[y] == RowText(pixels, height, y - 4)
  {
    ["type octile", "height " + NatToString(height), "width " + NatToString(width), "map"]
      + seq(height, y requires 0 <= y < height => RowText(pixels, height, y))
  }

  /** No line written for an image holds a newline. */
  lemma MapLinesWithoutNewlines(pixels: seq<seq<Rgb>>, width: nat, height: nat)
    requires IsGrid(pixels, width, height)
    ensures forall i :: 0 <= i < |MapLines(pixels, width, height)| ==> '\n' !in MapLines(pixels, width, height)[i]
  {
    var lines := MapLines(pixels, width, height);
    forall i | 0 <= i < |lines|
      ensures '\n' !in lines[i]
    {
      if 1 <= i <= 2 {
        var digits := if i == 1 then NatToString(height) else NatToString(width);
        assert forall k :: 0 <= k < |digits| ==> IsDigit(digits[k]);
        assert forall k :: 0 <= k < |lines[i]| ==> lines[i][k] != '\n';
      } else if i >= 4 {
        assert forall k :: 0 <= k < |lines[i]| ==> lines[i][k] in Tiles;
      }
    }
  }

  /** The text `img2movingai` writes for an image: split back on newlines it
      gives the written lines and the empty piece after the final newline. */
  function MapText(pixels: seq<seq<Rgb>>, width: nat, height: nat): (text: string)
    requires IsGrid(pixels, width, height)
    ensures Split(text, '\n') == MapLines(pixels, width, height) + [""]
  {
    MapLinesWithoutNewlines(pixels, width, height);
    SplitTerminated(MapLines(pixels, width, height));
    Terminated(MapLines(pixels, width, height))
  }

  /** The first four lines of the map text: the header and the `map` line. */
  lemma HeaderText(pixels: seq<seq<Rgb>>, width: nat, height: nat)
    requires IsGrid(pixels, width, height)
    ensures Terminated(MapLines(pixels, width, height)[..4])
      == "type octile\n" + "height " + NatToString(height) + "\n" + "width " + NatToString(width) + "\n" + "map\n"
  {
    var lines := MapLines(pixels, width, height);
    var a, b, c, d := lines[0], lines[1], lines[2], lines[3];
    assert lines[..4] == [a, b, c] + [d];
    assert [a, b, c] == [a, b] + [c] && [a, b] == [a] + [b] && [a] == [] + [a];
    TerminatedSnoc([], a);
    TerminatedSnoc([a], b);
    TerminatedSnoc([a, b], c);
    TerminatedSnoc([a, b, c], d);
  }

  /** `img2movingai`: the map text of an image, built as the source writes
      it, a header line at a time and then a row at a time, each row a
      character at a time. */
  method ImageToText(img: array2<Rgb>) returns (text: string)
    ensures text == MapText(Pixels(img), img.Length0, img.Length1)
  {
    var width, height := img.Length0, img.Length1;
    ghost var pixels := Pixels(img);
    ghost var lines := MapLines(pixels, width, height);
    text := "type octile\n" + "height " + NatToString(height) + "\n" + "width " + NatToString(width) + "\n" + "map\n";
    HeaderText(pixels, width, height);
    for y := 0 to height
      invariant text == Terminated(lines[..4 + y])
    {
      var line := "";
      for x := 0 to width
        invariant line == RowText(pixels, height, y)[..x]
      {
        line := line + [ColorToChar(img[x, y])];
      }
      AppendRow(lines, y + 4, line);
      text := text + line + "\n";
    }
    assert lines[..4 + height] == lines;
  }

  /** Writing line `k` extends the text of the lines before it. */
  lemma AppendRow(lines: seq<string>, k: nat, line: string)
    requires k < |lines| && line == lines[k]
    ensures Terminated(lines[..k + 1]) == Terminated(lines[..k]) + line + "\n"
  {
    assert lines[..k + 1] == lines[..k] + [lines[k]];
    TerminatedSnoc(lines[..k], lines[k]);
  }

  /** The pixels `movingai2img` paints for a map: the colour of the tile at
      `matrix[y][x]` for every `x < width` and `y < height`. */
  function ImageOf(m: MapState): (pixels: seq<seq<Rgb>>)
    requires m.InBounds() && m.width >= 0 && m.height >= 0
    ensures IsGrid(pixels, m.width, m.height)
    ensures forall x, y :: 0 <= x < m.width && 0 <= y < m.height ==>
      pixels[x][y] == CharToColor(m.matrix[y][x])
  {
    seq(m.width, x requires 0 <= x < m.width =>
      seq(m.height, y requires 0 <= y < m.height => CharToColor(m.matrix[y][x])))
  }

  /** `movingai2img`: a new `width` by `height` image, first filled with the
      wall colour, then painted column by column with the colour of each
      tile. The image library refuses a negative size with ValueError; a
      tile the loops reach that the matrix lacks raises IndexError. Either
      way no image comes out, so the model checks the size before painting. */
  method MapToImage(m: MovingAIMap) returns (r: Result<array2<Rgb>>)
    ensures m.width < 0 || m.height < 0 ==> r == Err(ValueError)
    ensures m.width >= 0 && m.height >= 0 && !m.State().InBounds() ==> r == Err(IndexError)
    ensures m.width >= 0 && m.height >= 0 && m.State().InBounds() ==> r.Ok?
    ensures r.Ok? ==> fresh(r.value) && r.value.Length0 == m.width && r.value.Length1 == m.height
    ensures r.Ok? ==> Pixels(r.value) == ImageOf(m.State())
  {
    if m.width < 0 || m.height < 0 {
      return Err(ValueError);
    }
    if !m.State().InBounds() {
      return Err(IndexError);
    }
    var img := new Rgb[m.width, m.height]((x, y) => WallColor);
    for x := 0 to m.width
      invariant forall i, j :: 0 <= i < x && 0 <= j < m.height ==> img[i, j] == CharToColor(m.matrix[j][i])
    {
      for y := 0 to m.height
        invariant forall i, j :: 0 <= i < x && 0 <= j < m.height ==> img[i, j] == CharToColor(m.matrix[j][i])
        invariant forall j :: 0 <= j < y ==> img[x, j] == CharToColor(m.matrix[j][x])
      {
        img[x, y] := CharToColor(m.matrix[y][x]);
      }
    }
    assert forall x :: 0 <= x < m.width ==> Pixels(img)[x] == ImageOf(m.State())[x];
    return Ok(img);
  }
}
