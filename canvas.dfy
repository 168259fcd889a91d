/** The part of reportlab's canvas that `download_resume` uses, with the page
    content kept as a list of draw commands instead of PDF bytes. */
module PdfCanvas {

  datatype Font = Helvetica | HelveticaBold

  /** One string drawn with its left end of baseline at `(x, y)`, in points,
      `y` measured upwards from the bottom of the page. */
  datatype Command = Draw(font: Font, size: int, x: int, y: int, text: string)

  /** A text object: lines drawn one below the other from an origin, each
      `leading` points below the previous one. */
  class TextObject {
    const font: Font
    const size: int
    const x: int
    const leading: int
    var y: int               // baseline of the next line
    var lines: seq<Command>  // lines added so far

    constructor (font: Font, size: int, x: int, y: int, leading: int)
      ensures this.font == font && this.size == size && this.x == x
      ensures this.y == y && this.leading == leading && lines == []
    {
      this.font, this.size, this.x, this.leading := font, size, x, leading;
      this.y := y;
      lines := [];
    }

    /** `textLine`: draws `s` on the current line and moves one line down. */
    method TextLine(s: string)
      modifies this
      ensures lines == old(lines) + [Draw(font, size, x, old(y), s)]
      ensures y == old(y) - leading
    {
      lines := lines + [Draw(font, size, x, y, s)];
      y := y - leading;
    }

    /** `getY`: the baseline the next line would be drawn on. */
    function GetY(): int
      reads this
    {
      y
    }
  }

  class Canvas {
    var font: Font
    var size: int
    var page: seq<Command>          // what has been drawn on the open page
    var pages: seq<seq<Command>>    // the finished pages

    /** A new canvas: reportlab starts in 12-point Helvetica. */
    constructor ()
      ensures font == Helvetica && size == 12 && page == [] && pages == []
    {
      font, size := Helvetica, 12;
      page, pages := [], [];
    }

    /** `setFont`: the font later strings are drawn in. */
    method SetFont(f: Font, s: int)
      modifies this
      ensures font == f && size == s
      ensures page == old(page) && pages == old(pages)
    {
      font, size := f, s;
    }

    /** `drawString`: one string in the current font. */
    method DrawString(x: int, y: int, text: string)
      modifies this
      ensures page == old(page) + [Draw(font, size, x, y, text)]
      ensures font == old(font) && size == old(size) && pages == old(pages)
    {
      page := page + [Draw(font, size, x, y, text)];
    }

    /** `beginText`: a text object at `(x, y)` in the current font. The leading
        is the one the canvas holds for that font. */
    method BeginText(x: int, y: int, leading: int) returns (t: TextObject)
      ensures fresh(t)
      ensures t.font == font && t.size == size && t.x == x && t.y == y
      ensures t.leading == leading && t.lines == []
    {
      t := new TextObject(font, size, x, y, leading);
    }

    /** `drawText`: puts the lines of a text object on the page. */
    method DrawText(t: TextObject)
      modifies this
      ensures page == old(page) + t.lines
      ensures font == old(font) && size == old(size) && pages == old(pages)
    {
      page := page + t.lines;
    }

    /** `showPage`: closes the open page and starts a blank one in the
        initial font. */
    method ShowPage()
      modifies this
      ensures pages == old(pages) + [old(page)] && page == []
      ensures font == Helvetica && size == 12
    {
      pages := pages + [page];
      page := [];
      font, size := Helvetica, 12;
    }
  }
}
