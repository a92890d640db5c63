/**
 * The barrier-map converters: three Node scripts that read a PNG whose
 * pixels are pure colours, turn each pixel into a barrier code and write
 * the grid out, either as a C++ header (utils/convert.js for every stage
 * image of a directory, map_to_barrier/convert.js for one image) or as
 * JSON (utils/convertToJSON.js).
 *
 * Reading and writing files is left to the caller: a decoded image is an
 * input, and what a script would write is returned as an Outcome.
 */
module Converters {
  import opened TankDefs

  /*-------------------------------------------------------------------------
   * Images and pixel classification
   *-------------------------------------------------------------------------*/

  newtype byte = b: int | 0 <= b < 256

  /** One RGBA pixel. */
  datatype Rgba = Rgba(r: byte, g: byte, b: byte, a: byte)

  /** A decoded PNG: four bytes per pixel, row after row. */
  datatype Image = Image(width: nat, height: nat, data: seq<byte>)

  /**
   * The decoder hands over four bytes for each of the width * height
   * pixels (RowStartIsProduct), row after row.
   */
  predicate ImageOk(img: Image)
  {
    |img.data| == RowStart(img.width, img.height)
  }

  /** Where row y of a width-w image starts: 4 * w bytes per row above it. */
  function RowStart(w: int, y: nat): (r: int)
    ensures w >= 0 ==> r >= 0
  {
    if y == 0 then 0 else RowStart(w, y - 1) + 4 * w
  }

  lemma {:induction false} RowStartIsProduct(w: int, y: nat)
    ensures RowStart(w, y) == 4 * (w * y)
  {
    if y > 0 {
      RowStartIsProduct(w, y - 1);
      assert w * y == w * (y - 1) + w;
    }
  }

  /** The bytes of pixel (x, y) start at (w * y + x) * 4: 4 * x after its row's start. */
  lemma PixelIndex(w: int, x: int, y: nat)
    ensures (w * y + x) * 4 == RowStart(w, y) + 4 * x
  {
    RowStartIsProduct(w, y);
  }

  /** The four bytes of a pixel of a w x h image lie inside its 4 * w * h bytes. */
  lemma {:induction false} PixelInside(w: int, h: nat, x: int, y: nat)
    requires 0 <= x < w && y < h
    ensures RowStart(w, y) + 4 * x + 4 <= RowStart(w, h)
  {
    if h > y + 1 {
      PixelInside(w, h - 1, x, y);
    }
  }

  /** The four bytes read at (width * y + x) * 4. */
  function PixelAt(img: Image, x: int, y: int): (p: Rgba)
    requires ImageOk(img) && 0 <= x < img.width && 0 <= y < img.height
  {
    PixelInside(img.width, img.height, x, y);
    var i := RowStart(img.width, y) + 4 * x;
    Rgba(img.data[i], img.data[i + 1], img.data[i + 2], img.data[i + 3])
  }

  /**
   * Which codes a script knows: utils/convert.js reads four colours, the
   * other two scripts only black and white.
   */
  datatype Palette = BarrierCodes | BlackWhite

  function NumCodes(palette: Palette): nat
  {
    match palette
    case BarrierCodes => 4
    case BlackWhite => 2
  }

  const OPAQUE_BLACK: Rgba := Rgba(0, 0, 0, 255)
  const OPAQUE_WHITE: Rgba := Rgba(255, 255, 255, 255)
  const OPAQUE_BLUE: Rgba := Rgba(0, 0, 255, 255)
  const OPAQUE_GREEN: Rgba := Rgba(0, 255, 0, 255)

  /**
   * The colour standing for each code: black is open ground (0), white
   * blocks everything (1), blue blocks tanks only (2), green blocks tanks
   * and bullets and can be destroyed by mines (3).
   */
  function Colour(c: int): Rgba
    requires 0 <= c < 4
  {
    [OPAQUE_BLACK, OPAQUE_WHITE, OPAQUE_BLUE, OPAQUE_GREEN][c]
  }

  /**
   * The per-pixel test of each script; None is the pixel that makes the
   * script stop with an error. A pixel is accepted exactly when it is the
   * colour of one of the palette's codes, and then it gets that code.
   */
  function Classify(palette: Palette, p: Rgba): (r: Option<int>)
    ensures forall c :: r == Some(c) <==> 0 <= c < NumCodes(palette) && p == Colour(c)
  {
    match palette
    case BarrierCodes =>
      if p.r == 0 && p.g == 0 && p.b == 0 && p.a == 255 then Some(0)
      else if p.r == 255 && p.g == 255 && p.b == 255 && p.a == 255 then Some(1)
      else if p.r == 0 && p.g == 0 && p.b == 255 && p.a == 255 then Some(2)
      else if p.r == 0 && p.g == 255 && p.b == 0 && p.a == 255 then Some(3)
      else None
    case BlackWhite =>
      if p.r == 255 && p.g == 255 && p.b == 255 && p.a == 255 then Some(1)
      else if p.r == 0 && p.g == 0 && p.b == 0 && p.a == 255 then Some(0)
      else None
  }

  /**
   * The black-and-white scripts give the same codes as utils/convert.js
   * where they accept a pixel, and they refuse its blue and green.
   */
  lemma BlackWhiteIsTheFirstTwoCodes(p: Rgba)
    ensures Classify(BlackWhite, p) ==
      if Classify(BarrierCodes, p) == Some(0) || Classify(BarrierCodes, p) == Some(1)
      then Classify(BarrierCodes, p) else None
  {
  }

  /** Every pixel of the image has a code in the palette. */
  predicate AllClassified(img: Image, palette: Palette)
    requires ImageOk(img)
  {
    forall y, x :: 0 <= y < img.height && 0 <= x < img.width ==> Classify(palette, PixelAt(img, x, y)).Some?
  }

  /**
   * What the nested loops of each script build: height rows of width codes,
   * or None when a pixel has no code.
   */
  function Decode(img: Image, palette: Palette): (r: Option<seq<seq<int>>>)
    requires ImageOk(img)
    ensures r.Some? <==> AllClassified(img, palette)
    ensures r.Some? ==> Shaped(r.value, img.width, img.height) && CodesOf(r.value, palette)
  {
    if AllClassified(img, palette) then
      Some(seq(img.height, y requires 0 <= y < img.height =>
        seq(img.width, x requires 0 <= x < img.width => Classify(palette, PixelAt(img, x, y)).value)))
    else None
  }

  /** height rows of width entries each. */
  predicate Shaped(g: seq<seq<int>>, w: int, h: int)
  {
    |g| == h && forall y :: 0 <= y < |g| ==> |g[y]| == w
  }

  /** Every entry is a code of the palette. */
  predicate CodesOf(g: seq<seq<int>>, palette: Palette)
  {
    forall y, x :: 0 <= y < |g| && 0 <= x < |g[y]| ==> 0 <= g[y][x] < NumCodes(palette)
  }

  /**
   * The pixel loops shared by the three scripts: row by row, pixel by
   * pixel, the code of each pixel is pushed onto the row and each finished
   * row onto the grid; the first pixel without a code ends the run.
   */
  method ReadGrid(img: Image, palette: Palette) returns (r: Option<seq<seq<int>>>)
    requires ImageOk(img)
    ensures r == Decode(img, palette)
  {
    var outputArray: seq<seq<int>> := [];
    var y := 0;
    while y < img.height
      invariant 0 <= y <= img.height && |outputArray| == y
      invariant forall j :: 0 <= j < y ==> |outputArray[j]| == img.width
      invariant forall j, i :: 0 <= j < y && 0 <= i < img.width ==>
        Classify(palette, PixelAt(img, i, j)) == Some(outputArray[j][i])
    {
      var row: seq<int> := [];
      var x := 0;
      while x < img.width
        invariant 0 <= x <= img.width && |row| == x
        invariant forall i :: 0 <= i < x ==> Classify(palette, PixelAt(img, i, y)) == Some(row[i])
      {
        PixelIndex(img.width, x, y);
        PixelInside(img.width, img.height, x, y);
        var idx := (img.width * y + x) * 4;
        var code := Classify(palette, Rgba(img.data[idx], img.data[idx + 1], img.data[idx + 2], img.data[idx + 3]));
        if code.None? {
          assert !Classify(palette, PixelAt(img, x, y)).Some?;
          return None;
        }
        row := row + [code.value];
        x := x + 1;
      }
      outputArray := outputArray + [row];
      y := y + 1;
    }
    assert AllClassified(img, palette);
    var g := Decode(img, palette).value;
    forall j | 0 <= j < img.height
      ensures outputArray[j] == g[j]
    {
      assert forall i :: 0 <= i < img.width ==> g[j][i] == Classify(palette, PixelAt(img, i, j)).value;
    }
    assert outputArray == g;
    r := Some(outputArray);
  }

  /*-------------------------------------------------------------------------
   * Drawing a grid back as an image
   *-------------------------------------------------------------------------*/

  /** Byte k of a pixel. */
  function Channel(p: Rgba, k: int): byte
    requires 0 <= k < 4
  {
    [p.r, p.g, p.b, p.a][k]
  }

  /** The pixel bytes of one row of codes. */
  function RowBytes(row: seq<int>): (s: seq<byte>)
    requires forall x :: 0 <= x < |row| ==> 0 <= row[x] < 4
    ensures |s| == 4 * |row|
  {
    if row == [] then []
    else
      var p := Colour(row[0]);
      [p.r, p.g, p.b, p.a] + RowBytes(row[1..])
  }

  /** The image a grid of codes is drawn as, row after row. */
  function Render(g: seq<seq<int>>): (s: seq<byte>)
    requires CodesOf(g, BarrierCodes)
    ensures |s| % 4 == 0
    ensures (forall y :: 0 <= y < |g| ==> g[y] == []) <==> s == []
  {
    if g == [] then [] else RowBytes(g[0]) + Render(g[1..])
  }

  lemma {:induction false} RowBytesAt(row: seq<int>, x: int, k: int)
    requires forall i :: 0 <= i < |row| ==> 0 <= row[i] < 4
    requires 0 <= x < |row| && 0 <= k < 4
    ensures RowBytes(row)[4 * x + k] == Channel(Colour(row[x]), k)
    decreases x
  {
    if x > 0 {
      RowBytesAt(row[1..], x - 1, k);
    }
  }

  lemma {:induction false} RenderAt(g: seq<seq<int>>, w: int, y: int, x: int, k: int)
    requires CodesOf(g, BarrierCodes) && Shaped(g, w, |g|)
    requires 0 <= y < |g| && 0 <= x < w && 0 <= k < 4
    ensures RowStart(w, y) + 4 * x + k < |Render(g)| &&
      Render(g)[RowStart(w, y) + 4 * x + k] == Channel(Colour(g[y][x]), k)
    decreases y
  {
    var a, b := RowBytes(g[0]), Render(g[1..]);
    assert Render(g) == a + b && |a| == 4 * w;
    if y == 0 {
      RowBytesAt(g[0], x, k);
    } else {
      RenderAt(g[1..], w, y - 1, x, k);
      var j := RowStart(w, y - 1) + 4 * x + k;
      assert RowStart(w, y) + 4 * x + k == |a| + j;
      assert (a + b)[|a| + j] == b[j];
    }
  }

  lemma {:induction false} RenderLength(g: seq<seq<int>>, w: int)
    requires CodesOf(g, BarrierCodes) && Shaped(g, w, |g|)
    ensures |Render(g)| == RowStart(w, |g|)
  {
    if g != [] {
      RenderLength(g[1..], w);
    }
  }

  /** Index i of a w * h image is byte i % 4 of the pixel at (p % w, p / w), p = i / 4. */
  lemma SplitIndex(w: nat, h: nat, i: int) returns (x: int, y: nat, k: int)
    requires 0 <= i < RowStart(w, h)
    ensures 0 <= x < w && y < h && 0 <= k < 4 && i == RowStart(w, y) + 4 * x + k
  {
    RowStartIsProduct(w, h);
    var p := i / 4;
    k := i % 4;
    assert 0 <= p < w * h;
    assert w != 0;
    y := p / w;
    x := p % w;
    assert p == w * y + x;
    if y >= h {
      MulMonotone(w, h, y);
    }
    PixelIndex(w, x, y);
  }

  lemma MulMonotone(w: nat, a: nat, b: nat)
    requires a <= b
    ensures w * a <= w * b
  {
    assert w * b - w * a == w * (b - a);
  }

  /**
   * The grid a script reads is the image, pixel for pixel: drawing a grid
   * and reading it back gives the grid, and a grid read from an image
   * draws exactly that image. The black-and-white scripts read the same
   * way whenever every code is 0 or 1.
   */
  lemma DecodeIsRenderInverse(img: Image, palette: Palette, g: seq<seq<int>>)
    requires ImageOk(img) && Shaped(g, img.width, img.height) && CodesOf(g, palette)
    ensures Decode(img, palette) == Some(g) <==> img.data == Render(g)
  {
    if img.data == Render(g) {
      RenderDecodes(img, palette, g);
    }
    if Decode(img, palette) == Some(g) {
      DecodeRenders(img, palette, g);
    }
  }

  lemma RenderDecodes(img: Image, palette: Palette, g: seq<seq<int>>)
    requires ImageOk(img) && Shaped(g, img.width, img.height) && CodesOf(g, palette)
    requires img.data == Render(g)
    ensures Decode(img, palette) == Some(g)
  {
    assert CodesOf(g, BarrierCodes);
    var w, h := img.width, img.height;
    forall y, x | 0 <= y < h && 0 <= x < w
      ensures Classify(palette, PixelAt(img, x, y)) == Some(g[y][x])
    {
      RenderAt(g, w, y, x, 0);
      RenderAt(g, w, y, x, 1);
      RenderAt(g, w, y, x, 2);
      RenderAt(g, w, y, x, 3);
      assert PixelAt(img, x, y) == Colour(g[y][x]);
    }
    assert AllClassified(img, palette);
    var d := Decode(img, palette).value;
    forall y | 0 <= y < h
      ensures d[y] == g[y]
    {
      assert forall x :: 0 <= x < w ==> d[y][x] == Classify(palette, PixelAt(img, x, y)).value;
    }
    assert d == g;
  }

  lemma DecodeRenders(img: Image, palette: Palette, g: seq<seq<int>>)
    requires ImageOk(img) && Shaped(g, img.width, img.height) && CodesOf(g, palette)
    requires Decode(img, palette) == Some(g)
    ensures img.data == Render(g)
  {
    assert CodesOf(g, BarrierCodes);
    var w, h := img.width, img.height;
    RenderLength(g, w);
    forall i | 0 <= i < |img.data|
      ensures img.data[i] == Render(g)[i]
    {
      var x, y, k := SplitIndex(w, h, i);
      RenderAt(g, w, y, x, k);
      assert Classify(palette, PixelAt(img, x, y)) == Some(g[y][x]);
      assert PixelAt(img, x, y) == Colour(g[y][x]);
    }
  }

  /*-------------------------------------------------------------------------
   * Rows as text
   *-------------------------------------------------------------------------*/

  predicate IsDigit(c: char)
  {
    '0' <= c <= '9'
  }

  /** The decimal digit of a one-digit number. */
  function Digit(n: int): (c: char)
    requires 0 <= n <= 9
    ensures IsDigit(c) && c as int - '0' as int == n
  {
    (('0' as int) + n) as char
  }

  predicate Digits(row: seq<int>)
  {
    forall i :: 0 <= i < |row| ==> 0 <= row[i] <= 9
  }

  predicate DigitGrid(g: seq<seq<int>>)
  {
    forall y, x :: 0 <= y < |g| && 0 <= x < |g[y]| ==> 0 <= g[y][x] <= 9
  }

  /** Array.prototype.join on one-digit numbers. */
  function Join(row: seq<int>, sep: string): (r: string)
    requires Digits(row)
    ensures row != [] ==> |r| >= 1
  {
    if row == [] then ""
    else if |row| == 1 then [Digit(row[0])]
    else [Digit(row[0])] + sep + Join(row[1..], sep)
  }

  /** Reads back a list of one-digit numbers written by Join. */
  function ParseList(s: string, sep: string): Option<seq<int>>
    decreases |s|
  {
    if s == [] then Some([])
    else if !IsDigit(s[0]) then None
    else if |s| == 1 then Some([s[0] as int - '0' as int])
    else if |s| > 1 + |sep| && s[1..1 + |sep|] == sep then
      match ParseList(s[1 + |sep|..], sep)
      case None => None
      case Some(rest) => Some([s[0] as int - '0' as int] + rest)
    else None
  }

  lemma {:induction false} ParseListJoin(row: seq<int>, sep: string)
    requires Digits(row)
    ensures ParseList(Join(row, sep), sep) == Some(row)
  {
    if |row| == 1 {
      assert [row[0]] == row;
    } else if |row| >= 2 {
      var s := Join(row, sep);
      var t := Join(row[1..], sep);
      assert s == [Digit(row[0])] + sep + t;
      ParseListJoin(row[1..], sep);
      assert s[1..1 + |sep|] == sep;
      assert s[1 + |sep|..] == t;
      assert ParseList(s, sep) == Some([row[0]] + row[1..]);
      assert [row[0]] + row[1..] == row;
    }
  }

  /** A joined list holds only digits and separator characters. */
  lemma {:induction false} JoinAvoids(row: seq<int>, sep: string, c: char)
    requires Digits(row) && !IsDigit(c) && c !in sep
    ensures c !in Join(row, sep)
  {
    if |row| >= 2 {
      JoinAvoids(row[1..], sep, c);
    }
  }

  /**
   * How a row is wrapped and rows are separated: the header writes
   * `    { 0, 1 }` rows joined by a comma and a line break, JSON.stringify
   * `[0,1]` rows joined by a comma.
   */
  datatype Layout = Layout(open: string, sep: string, close: string, rowSep: string)

  const CPP_ROWS: Layout := Layout("    { ", ", ", " }", ",\n")
  const JSON_ROWS: Layout := Layout("[", ",", "]", ",")

  /** The last character of a row, which appears nowhere else in the row. */
  predicate LayoutOk(f: Layout)
  {
    |f.open| >= 1 && |f.close| >= 1 &&
    var e := f.close[|f.close| - 1];
    !IsDigit(e) && e !in f.open && e !in f.sep && e !in f.close[..|f.close| - 1]
  }

  function RowText(row: seq<int>, f: Layout): string
    requires Digits(row)
  {
    f.open + Join(row, f.sep) + f.close
  }

  /** The first position of c in s, or |s| when there is none. */
  function Find(s: string, c: char): (k: nat)
    ensures k <= |s| && (k < |s| ==> s[k] == c)
    ensures forall i :: 0 <= i < k ==> s[i] != c
  {
    if s == [] || s[0] == c then 0 else 1 + Find(s[1..], c)
  }

  /** Reads one row at the start of s; gives its numbers and what follows it. */
  function ParseRow(s: string, f: Layout): (r: Option<(seq<int>, string)>)
    requires LayoutOk(f)
    ensures r.Some? ==> |r.value.1| < |s|
  {
    var n, m := |f.open|, |f.close|;
    if |s| < n || s[..n] != f.open then None
    else
      var k := Find(s, f.close[m - 1]);
      if k == |s| || k + 1 < n + m || s[k + 1 - m..k + 1] != f.close then None
      else
        match ParseList(s[n..k + 1 - m], f.sep)
        case None => None
        case Some(row) => Some((row, s[k + 1..]))
  }

  lemma ParseRowText(row: seq<int>, f: Layout, rest: string)
    requires LayoutOk(f) && Digits(row)
    ensures ParseRow(RowText(row, f) + rest, f) == Some((row, rest))
  {
    var s := RowText(row, f) + rest;
    var n, m := |f.open|, |f.close|;
    var k := n + |Join(row, f.sep)| + m - 1;
    RowEnd(row, f, rest);
    ParseListJoin(row, f.sep);
    assert ParseList(s[n..k + 1 - m], f.sep) == Some(row);
  }

  /** Where a row's text ends, and what its parts are. */
  lemma RowEnd(row: seq<int>, f: Layout, rest: string)
    requires LayoutOk(f) && Digits(row)
    ensures var s := RowText(row, f) + rest;
      var n, m := |f.open|, |f.close|;
      var k := n + |Join(row, f.sep)| + m - 1;
      k < |s| && n + m <= k + 1 &&
      Find(s, f.close[m - 1]) == k && s[..n] == f.open && s[k + 1 - m..k + 1] == f.close &&
      s[n..k + 1 - m] == Join(row, f.sep) && s[k + 1..] == rest
  {
    var j := Join(row, f.sep);
    var e := f.close[|f.close| - 1];
    var n, m := |f.open|, |f.close|;
    var s := f.open + j + f.close + rest;
    assert RowText(row, f) + rest == s;
    JoinAvoids(row, f.sep, e);
    var k := n + |j| + m - 1;
    assert s[k] == e;
    forall i | 0 <= i < k
      ensures s[i] != e
    {
      if i < n {
        assert s[i] == f.open[i];
      } else if i < n + |j| {
        assert s[i] == j[i - n];
      } else {
        assert s[i] == f.close[..m - 1][i - n - |j|];
      }
    }
    assert s[..n] == f.open;
    assert s[k + 1 - m..k + 1] == f.close;
    assert s[n..k + 1 - m] == j;
    assert s[k + 1..] == rest;
  }

  /** Rows joined by the layout's row separator. */
  function RowsText(g: seq<seq<int>>, f: Layout): (r: string)
    requires DigitGrid(g)
    ensures g != [] ==> |r| >= |f.open|
  {
    if g == [] then ""
    else if |g| == 1 then RowText(g[0], f)
    else RowText(g[0], f) + f.rowSep + RowsText(g[1..], f)
  }

  /** Reads back rows written by RowsText. */
  function ParseRows(s: string, f: Layout): Option<seq<seq<int>>>
    requires LayoutOk(f)
    decreases |s|
  {
    if s == [] then Some([])
    else
      match ParseRow(s, f)
      case None => None
      case Some((row, rest)) =>
        if rest == [] then Some([row])
        else if |rest| > |f.rowSep| && rest[..|f.rowSep|] == f.rowSep then
          match ParseRows(rest[|f.rowSep|..], f)
          case None => None
          case Some(rows) => Some([row] + rows)
        else None
  }

  lemma {:induction false} ParseRowsText(g: seq<seq<int>>, f: Layout)
    requires LayoutOk(f) && DigitGrid(g)
    ensures ParseRows(RowsText(g, f), f) == Some(g)
  {
    if |g| == 1 {
      ParseRowText(g[0], f, "");
      assert RowText(g[0], f) + "" == RowText(g[0], f);
      assert [g[0]] == g;
    } else if |g| >= 2 {
      ParseRowsText(g[1..], f);
      ParseRowsCons(g[0], RowsText(g[1..], f), g[1..], f);
      assert [g[0]] + g[1..] == g;
    }
  }

  /** One more row in front of rows that read back. */
  lemma ParseRowsCons(row: seq<int>, tail: string, rows: seq<seq<int>>, f: Layout)
    requires LayoutOk(f) && Digits(row) && tail != [] && ParseRows(tail, f) == Some(rows)
    ensures ParseRows(RowText(row, f) + f.rowSep + tail, f) == Some([row] + rows)
  {
    var rest := f.rowSep + tail;
    var s := RowText(row, f) + f.rowSep + tail;
    assert s == RowText(row, f) + rest;
    ParseRowText(row, f, rest);
    assert rest[..|f.rowSep|] == f.rowSep && rest[|f.rowSep|..] == tail;
  }

  /*-------------------------------------------------------------------------
   * Output files
   *-------------------------------------------------------------------------*/

  /** What every header ends with (the guard's comment names a different macro). */
  const TRAILER: string := "\n};\n\n#endif // IMAGE_DATA_H\n"

  /**
   * utils/convert.js's header template up to the rows, cut where the
   * identifier is substituted. Width 256, height 192 and cell size 16 are
   * written whatever the image's size.
   */
  const STAGE_TEMPLATE: seq<string> := [
    "#ifndef ", "_H\n#define ",
    "_H\n\n#include \"../Stage.h\"\n#include \"../Tank.h\"\n#include \"nds/arm9/video.h\"\n\nconst int ",
    "_WIDTH = 256;\nconst int ",
    "_HEIGHT = 192;\n\nconst int ",
    "_CELL_SIZE = 16;\nstd::vector<Tank *> *CREATE_",
    "_TANKS(Stage *stage);\n\nconst int ",
    "_BARRIERS[SCREEN_HEIGHT][SCREEN_WIDTH] = {\n"]

  /** A template literal: the pieces with id substituted between each two. */
  function Fill(pieces: seq<string>, id: string): string
    decreases |pieces|
  {
    if pieces == [] then ""
    else if |pieces| == 1 then pieces[0]
    else pieces[0] + id + Fill(pieces[1..], id)
  }

  function StagePrefix(id: string): string
  {
    Fill(STAGE_TEMPLATE, id)
  }

  /**
   * map_to_barrier/convert.js's header up to the rows: always the stage 1
   * names, two tanks, and the older array-of-addresses declaration.
   */
  const BARRIER_PREFIX: string :=
    "#ifndef STAGE_1_H\n#define STAGE_1_H\n\n" +
    "#include \"../Stage.h\"\n#include \"../Tank.h\"\n#include \"nds/arm9/video.h\"\n\n" +
    "const int STAGE_1_WIDTH = 256;\n" +
    "const int STAGE_1_HEIGHT = 192;\n\n" +
    "const int STAGE_1_CELL_SIZE = 16;\n" +
    "const int STAGE_1_NUM_TANKS = 2; // Includes user and enemies\n" +
    "Tank **CREATE_STAGE_1_TANKS(Stage *stage);\n\n" +
    "const int STAGE_1_BARRIERS[SCREEN_HEIGHT][SCREEN_WIDTH] = {\n"

  function HeaderText(prefix: string, g: seq<seq<int>>): string
    requires DigitGrid(g)
  {
    prefix + RowsText(g, CPP_ROWS) + TRAILER
  }

  /** Reads the grid back out of a header that starts with the given prefix. */
  function ParseHeader(prefix: string, text: string): Option<seq<seq<int>>>
  {
    if |text| >= |prefix| + |TRAILER| && text[..|prefix|] == prefix && text[|text| - |TRAILER|..] == TRAILER
    then ParseRows(text[|prefix|..|text| - |TRAILER|], CPP_ROWS)
    else None
  }

  /**
   * A header holds its grid: after the fixed prefix, which does not depend
   * on the grid, the rows read back as exactly the grid written.
   */
  lemma HeaderRoundTrip(prefix: string, g: seq<seq<int>>)
    requires DigitGrid(g)
    ensures var text := HeaderText(prefix, g);
      text[..|prefix|] == prefix && ParseHeader(prefix, text) == Some(g)
  {
    var text := HeaderText(prefix, g);
    var rows := RowsText(g, CPP_ROWS);
    assert text[|prefix|..|text| - |TRAILER|] == rows;
    ParseRowsText(g, CPP_ROWS);
  }

  /** JSON.stringify of an array of arrays of one-digit integers: no spaces. */
  function JsonText(g: seq<seq<int>>): string
    requires DigitGrid(g)
  {
    "[" + RowsText(g, JSON_ROWS) + "]"
  }

  /**
   * Reads an array of arrays of one-digit integers in the form
   * JSON.stringify writes it (section 5 of RFC 8259, without whitespace).
   */
  function ParseJson(s: string): Option<seq<seq<int>>>
  {
    if |s| >= 2 && s[0] == '[' && s[|s| - 1] == ']' then ParseRows(s[1..|s| - 1], JSON_ROWS) else None
  }

  lemma JsonRoundTrip(g: seq<seq<int>>)
    requires DigitGrid(g)
    ensures ParseJson(JsonText(g)) == Some(g)
  {
    var s := JsonText(g);
    assert s[1..|s| - 1] == RowsText(g, JSON_ROWS);
    ParseRowsText(g, JSON_ROWS);
  }

  /*-------------------------------------------------------------------------
   * File names (utils/convert.js)
   *-------------------------------------------------------------------------*/

  const STAGE_PREFIX: string := "stage-"
  const BARRIERS_SUFFIX: string := "_barriers.png"

  /** The characters a regular expression's `.` does not match. */
  predicate LineTerminator(c: char)
  {
    c == '\n' || c == '\r' || c == '\U{2028}' || c == '\U{2029}'
  }

  /** The name filter ^stage-.*_barriers\.png$ */
  predicate IsStageImage(name: string)
  {
    |name| >= |STAGE_PREFIX| + |BARRIERS_SUFFIX| &&
    name[..|STAGE_PREFIX|] == STAGE_PREFIX && name[|name| - |BARRIERS_SUFFIX|..] == BARRIERS_SUFFIX &&
    forall i :: |STAGE_PREFIX| <= i < |name| - |BARRIERS_SUFFIX| ==> !LineTerminator(name[i])
  }

  /** A name passes the filter exactly when it is stage-, a one-line stem and _barriers.png. */
  lemma StageImageMeans(name: string)
    ensures IsStageImage(name) <==>
      exists stem :: name == STAGE_PREFIX + stem + BARRIERS_SUFFIX && forall i :: 0 <= i < |stem| ==> !LineTerminator(stem[i])
  {
    if IsStageImage(name) {
      var stem := name[|STAGE_PREFIX|..|name| - |BARRIERS_SUFFIX|];
      assert name == STAGE_PREFIX + stem + BARRIERS_SUFFIX;
      assert forall i :: 0 <= i < |stem| ==> stem[i] == name[|STAGE_PREFIX| + i];
    }
  }

  /** The files the script converts, in directory order. */
  function StageImages(files: seq<string>): (r: seq<string>)
    ensures forall f :: f in r <==> f in files && IsStageImage(f)
    ensures |r| <= |files|
  {
    if files == [] then []
    else (if IsStageImage(files[0]) then [files[0]] else []) + StageImages(files[1..])
  }

  /** pat occurs in s starting at position i. */
  predicate OccursAt(s: string, pat: string, i: int)
  {
    0 <= i && i + |pat| <= |s| && s[i..i + |pat|] == pat
  }

  /** The first place pat occurs in s. */
  function IndexOf(s: string, pat: string): (r: Option<nat>)
    ensures r.Some? ==> OccursAt(s, pat, r.value)
    ensures forall i :: OccursAt(s, pat, i) ==> r.Some? && r.value <= i
    decreases |s|
  {
    if |s| < |pat| then None
    else if s[..|pat|] == pat then Some(0)
    else
      var t := IndexOf(s[1..], pat);
      assert forall i :: OccursAt(s, pat, i) ==> i >= 1 && OccursAt(s[1..], pat, i - 1) by {
        forall i | OccursAt(s, pat, i)
          ensures i >= 1 && OccursAt(s[1..], pat, i - 1)
        {
          if i >= 1 {
            assert s[1..][i - 1..i - 1 + |pat|] == s[i..i + |pat|];
          }
        }
      }
      match t
      case None => None
      case Some(k) =>
        assert s[1..][k..k + |pat|] == s[k + 1..k + 1 + |pat|];
        Some(k + 1)
  }

  /** String.prototype.replace with a string pattern: the first occurrence only. */
  function ReplaceFirst(s: string, pat: string, rep: string): string
  {
    match IndexOf(s, pat)
    case None => s
    case Some(i) => s[..i] + rep + s[i + |pat|..]
  }

  /** The header's file name: _barriers.png becomes .h. */
  function OutputName(file: string): string
  {
    ReplaceFirst(file, BARRIERS_SUFFIX, ".h")
  }

  /** path.basename(name, ext): the name without a trailing ext. */
  function StripExtension(name: string, ext: string): string
  {
    if |name| > |ext| && name[|name| - |ext|..] == ext then name[..|name| - |ext|] else name
  }

  /** replace(/-/g, '_') followed by toUpperCase, on ASCII. */
  function IdentifierChar(c: char): char
  {
    if c == '-' then '_' else if 'a' <= c <= 'z' then (c as int - 32) as char else c
  }

  /** The macro and variable stem of a header. */
  function Identifier(outputName: string): (r: string)
    ensures forall i :: 0 <= i < |r| ==> r[i] != '-' && !('a' <= r[i] <= 'z')
  {
    var base := StripExtension(outputName, ".h");
    seq(|base|, i requires 0 <= i < |base| => IdentifierChar(base[i]))
  }

  /**
   * For a stem without underscores the output is stem.h next to the image
   * and the identifier is STAGE_ and the stem, with dashes turned into
   * underscores and letters into capitals: stage-1_barriers.png gives
   * stage-1.h and STAGE_1.
   */
  lemma StageNames(stem: string)
    requires forall i :: 0 <= i < |stem| ==> stem[i] != '_'
    ensures OutputName(STAGE_PREFIX + stem + BARRIERS_SUFFIX) == STAGE_PREFIX + stem + ".h"
    ensures Identifier(OutputName(STAGE_PREFIX + stem + BARRIERS_SUFFIX)) ==
      "STAGE_" + seq(|stem|, i requires 0 <= i < |stem| => IdentifierChar(stem[i]))
  {
    var name := STAGE_PREFIX + stem + BARRIERS_SUFFIX;
    var at := |STAGE_PREFIX| + |stem|;
    assert OccursAt(name, BARRIERS_SUFFIX, at);
    forall i | 0 <= i < at
      ensures !OccursAt(name, BARRIERS_SUFFIX, i)
    {
      assert name[i] != '_';
    }
    assert IndexOf(name, BARRIERS_SUFFIX) == Some(at);
    var out := STAGE_PREFIX + stem + ".h";
    assert OutputName(name) == out;
    IdentifierOfHeader(stem);
  }

  /** The identifier of stage-<stem>.h is STAGE_ and the converted stem. */
  lemma IdentifierOfHeader(stem: string)
    ensures Identifier(STAGE_PREFIX + stem + ".h") ==
      "STAGE_" + seq(|stem|, i requires 0 <= i < |stem| => IdentifierChar(stem[i]))
  {
    var base := STAGE_PREFIX + stem;
    assert StripExtension(base + ".h", ".h") == base;
    var id := Identifier(base + ".h");
    var want := "STAGE_" + seq(|stem|, i requires 0 <= i < |stem| => IdentifierChar(stem[i]));
    forall i | 0 <= i < |base|
      ensures id[i] == want[i]
    {
      if i >= |STAGE_PREFIX| {
        assert base[i] == stem[i - |STAGE_PREFIX|];
      }
    }
  }

  /** Only the first _barriers.png of a name is replaced. */
  lemma OnlyTheFirstSuffixIsReplaced()
    ensures OutputName("stage-a" + BARRIERS_SUFFIX + BARRIERS_SUFFIX) == "stage-a.h" + BARRIERS_SUFFIX
  {
    var head := "stage-a";
    var name := head + BARRIERS_SUFFIX + BARRIERS_SUFFIX;
    assert name[7..7 + |BARRIERS_SUFFIX|] == BARRIERS_SUFFIX;
    forall i | 0 <= i < 7
      ensures !OccursAt(name, BARRIERS_SUFFIX, i)
    {
      assert name[i] == head[i];
      assert i == 0 || i == 1 || i == 2 || i == 3 || i == 4 || i == 5 || i == 6;
    }
    assert OccursAt(name, BARRIERS_SUFFIX, 7);
    var r := IndexOf(name, BARRIERS_SUFFIX);
    assert r.Some? && r.value <= 7 && OccursAt(name, BARRIERS_SUFFIX, r.value);
    assert r == Some(7);
    assert name[..7] == head && name[7 + |BARRIERS_SUFFIX|..] == BARRIERS_SUFFIX;
  }

  /*-------------------------------------------------------------------------
   * The three scripts
   *-------------------------------------------------------------------------*/

  /** What a script leaves behind: a written file, or the message it stops with. */
  datatype Outcome = Written(path: string, text: string) | Failed(message: string)

  const USAGE: string := "Usage: node png_to_array.js <input.png> <output.h>"
  const PIXEL_ERROR: string := "Error: Image contains non-pure black/white pixels."
  const DIRECTORY_ERROR: string := "Error reading input directory:"

  /** The argument check: node, the script, then the input and output paths. */
  function Arguments(argv: seq<string>): (r: Option<(string, string)>)
    ensures r.None? <==> |argv| < 4
    ensures r.Some? ==> r.value == (argv[2], argv[3])
  {
    if |argv| < 4 then None else Some((argv[2], argv[3]))
  }

  /**
   * map_to_barrier/convert.js on the image read from its input path: a
   * usage error, the pixel error, or the stage 1 header at the output path.
   */
  function BarrierScript(argv: seq<string>, img: Image): (o: Outcome)
    requires ImageOk(img)
    ensures o.Failed? <==> |argv| < 4 || Decode(img, BlackWhite).None?
    ensures o.Failed? ==> o.message == (if |argv| < 4 then USAGE else PIXEL_ERROR)
    ensures o.Written? ==> o.path == argv[3]
  {
    match Arguments(argv)
    case None => Failed(USAGE)
    case Some((_, output)) =>
      match Decode(img, BlackWhite)
      case None => Failed(PIXEL_ERROR)
      case Some(g) => Written(output, HeaderText(BARRIER_PREFIX, g))
  }

  /** utils/convertToJSON.js: the same checks, then the grid as JSON. */
  function JsonScript(argv: seq<string>, img: Image): (o: Outcome)
    requires ImageOk(img)
    ensures o.Failed? <==> |argv| < 4 || Decode(img, BlackWhite).None?
    ensures o.Failed? ==> o.message == (if |argv| < 4 then USAGE else PIXEL_ERROR)
    ensures o.Written? ==> o.path == argv[3]
  {
    match Arguments(argv)
    case None => Failed(USAGE)
    case Some((_, output)) =>
      match Decode(img, BlackWhite)
      case None => Failed(PIXEL_ERROR)
      case Some(g) => Written(output, JsonText(g))
  }

  /** utils/convert.js on one stage image. */
  function StageScript(file: string, img: Image): (o: Outcome)
    requires ImageOk(img)
    ensures o.Failed? ==> o.message == PIXEL_ERROR
    ensures o.Written? ==> o.path == OutputName(file)
  {
    match Decode(img, BarrierCodes)
    case None => Failed(PIXEL_ERROR)
    case Some(g) => Written(OutputName(file), HeaderText(StagePrefix(Identifier(OutputName(file))), g))
  }

  method MapToBarrier(argv: seq<string>, img: Image) returns (o: Outcome)
    requires ImageOk(img)
    ensures o == BarrierScript(argv, img)
  {
    if |argv| < 4 {
      return Failed(USAGE);
    }
    var outputPath := argv[3];
    var grid := ReadGrid(img, BlackWhite);
    if grid.None? {
      return Failed(PIXEL_ERROR);
    }
    o := Written(outputPath, BARRIER_PREFIX + RowsText(grid.value, CPP_ROWS) + TRAILER);
  }

  method ConvertToJson(argv: seq<string>, img: Image) returns (o: Outcome)
    requires ImageOk(img)
    ensures o == JsonScript(argv, img)
  {
    if |argv| < 4 {
      return Failed(USAGE);
    }
    var outputPath := argv[3];
    var grid := ReadGrid(img, BlackWhite);
    if grid.None? {
      return Failed(PIXEL_ERROR);
    }
    o := Written(outputPath, JsonText(grid.value));
  }

  method ConvertStage(file: string, img: Image) returns (o: Outcome)
    requires ImageOk(img)
    ensures o == StageScript(file, img)
  {
    var outputFileName := OutputName(file);
    var grid := ReadGrid(img, BarrierCodes);
    if grid.None? {
      return Failed(PIXEL_ERROR);
    }
    var variableName := Identifier(outputFileName);
    o := Written(outputFileName, HeaderText(StagePrefix(variableName), grid.value));
  }

  /** Every listed file has a decoded image. */
  predicate HasImages(files: seq<string>, images: map<string, Image>)
  {
    forall f :: f in files ==> f in images && ImageOk(images[f])
  }

  /**
   * utils/convert.js over a directory listing: a listing error, or one
   * outcome per stage image in listing order. images holds the decoded
   * image of each listed file.
   */
  method ConvertStages(listing: Option<seq<string>>, images: map<string, Image>) returns (outcomes: seq<Outcome>)
    requires listing.Some? ==> HasImages(listing.value, images)
    ensures listing.None? ==> outcomes == [Failed(DIRECTORY_ERROR)]
    ensures listing.Some? ==> var files := StageImages(listing.value);
      |outcomes| == |files| && forall i :: 0 <= i < |files| ==> outcomes[i] == StageScript(files[i], images[files[i]])
  {
    if listing.None? {
      return [Failed(DIRECTORY_ERROR)];
    }
    var files := StageImages(listing.value);
    assert HasImages(files, images);
    outcomes := ConvertEach(files, images);
  }

  /** The forEach over the selected files: each is converted on its own. */
  method ConvertEach(files: seq<string>, images: map<string, Image>) returns (outcomes: seq<Outcome>)
    requires forall i :: 0 <= i < |files| ==> files[i] in images && ImageOk(images[files[i]])
    ensures |outcomes| == |files| && forall i :: 0 <= i < |files| ==> outcomes[i] == StageScript(files[i], images[files[i]])
  {
    ghost var expected := seq(|files|, i requires 0 <= i < |files| => StageScript(files[i], images[files[i]]));
    outcomes := [];
    for i := 0 to |files|
      invariant |outcomes| == i
      invariant forall j :: 0 <= j < i ==> outcomes[j] == expected[j]
    {
      var o := ConvertStage(files[i], images[files[i]]);
      assert o == expected[i];
      outcomes := outcomes + [o];
    }
  }

  /*-------------------------------------------------------------------------
   * What the written files hold
   *-------------------------------------------------------------------------*/

  /**
   * map_to_barrier/convert.js fails with the usage message exactly when
   * fewer than four arguments are given and with the pixel message exactly
   * when a pixel is neither opaque black nor opaque white; otherwise it
   * writes, at the output path, a stage 1 header whose rows read back as
   * the image: height rows of width codes, 1 for white and 0 for black.
   */
  lemma BarrierScriptHoldsImage(argv: seq<string>, img: Image)
    requires ImageOk(img)
    ensures match BarrierScript(argv, img)
      case Failed(m) => (m == USAGE <==> |argv| < 4) && (m == PIXEL_ERROR <==> |argv| >= 4 && !AllClassified(img, BlackWhite))
      case Written(path, text) =>
        |argv| >= 4 && path == argv[3] &&
        exists g :: ParseHeader(BARRIER_PREFIX, text) == Some(g) && Shaped(g, img.width, img.height) &&
          CodesOf(g, BlackWhite) && img.data == Render(g)
  {
    if |argv| >= 4 && AllClassified(img, BlackWhite) {
      var g := Decode(img, BlackWhite).value;
      HeaderRoundTrip(BARRIER_PREFIX, g);
      DecodeIsRenderInverse(img, BlackWhite, g);
    }
  }

  /** utils/convertToJSON.js: the same failures; otherwise JSON that parses back to the image's grid. */
  lemma JsonScriptHoldsImage(argv: seq<string>, img: Image)
    requires ImageOk(img)
    ensures match JsonScript(argv, img)
      case Failed(m) => (m == USAGE <==> |argv| < 4) && (m == PIXEL_ERROR <==> |argv| >= 4 && !AllClassified(img, BlackWhite))
      case Written(path, text) =>
        |argv| >= 4 && path == argv[3] &&
        exists g :: ParseJson(text) == Some(g) && Shaped(g, img.width, img.height) &&
          CodesOf(g, BlackWhite) && img.data == Render(g)
  {
    if |argv| >= 4 && AllClassified(img, BlackWhite) {
      var g := Decode(img, BlackWhite).value;
      JsonRoundTrip(g);
      DecodeIsRenderInverse(img, BlackWhite, g);
    }
  }

  /**
   * utils/convert.js fails on an image with a pixel of none of the four
   * colours; otherwise the header it writes for the image reads back as
   * the image's grid of codes 0 to 3.
   */
  lemma StageScriptHoldsImage(file: string, img: Image)
    requires ImageOk(img)
    ensures match StageScript(file, img)
      case Failed(m) => m == PIXEL_ERROR && !AllClassified(img, BarrierCodes)
      case Written(path, text) =>
        path == OutputName(file) &&
        exists g :: ParseHeader(StagePrefix(Identifier(path)), text) == Some(g) &&
          Shaped(g, img.width, img.height) && CodesOf(g, BarrierCodes) && img.data == Render(g)
  {
    if AllClassified(img, BarrierCodes) {
      var g := Decode(img, BarrierCodes).value;
      HeaderRoundTrip(StagePrefix(Identifier(OutputName(file))), g);
      DecodeIsRenderInverse(img, BarrierCodes, g);
    }
  }
}
