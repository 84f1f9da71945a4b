/** The host drawing surface, reduced to what the modelled code observes:
    the canvas size, the current drawing style, the save/restore stack, and
    an append-only log of what was drawn.  Rendering itself is not modelled. */
module Canvas {

  /** The style attributes the sources set on the 2D context. */
  datatype Style = Style(strokeStyle: string, fillStyle: string, font: string, lineWidth: real)

  /** One drawing record.  A stroked segment captures the stroke colour and
      width in force when it was stroked; a text captures the font and fill
      colour in force when it was filled. */
  datatype Command =
    | Stroke(x0: int, y0: int, x1: int, y1: int, color: string, width: real)
    | Text(text: string, x: int, y: int, font: string, color: string)

  /** A 2D context together with its canvas's width and height. */
  class Context {
    var width: nat
    var height: nat
    var style: Style
    var saved: seq<Style>
    var log: seq<Command>

    constructor (width: nat, height: nat, style: Style)
      ensures this.width == width && this.height == height
      ensures this.style == style && saved == [] && log == []
    {
      this.width := width;
      this.height := height;
      this.style := style;
      saved := [];
      log := [];
    }

    /** beginPath, moveTo, lineTo, stroke: one segment in the current style. */
    method StrokeLine(x0: int, y0: int, x1: int, y1: int)
      modifies this`log
      ensures log == old(log) + [Stroke(x0, y0, x1, y1, style.strokeStyle, style.lineWidth)]
    {
      log := log + [Stroke(x0, y0, x1, y1, style.strokeStyle, style.lineWidth)];
    }

    /** fillText in the current font and fill colour. */
    method FillText(text: string, x: int, y: int)
      modifies this`log
      ensures log == old(log) + [Text(text, x, y, style.font, style.fillStyle)]
    {
      log := log + [Text(text, x, y, style.font, style.fillStyle)];
    }

    /** save(): push the current style. */
    method Save()
      modifies this`saved
      ensures saved == old(saved) + [style]
    {
      saved := saved + [style];
    }

    /** restore(): pop the most recently saved style; with nothing saved it
        does nothing. */
    method Restore()
      modifies this`saved, this`style
      ensures old(saved) == [] ==> saved == [] && style == old(style)
      ensures old(saved) != [] ==>
        style == old(saved)[|old(saved)| - 1] && saved == old(saved)[..|old(saved)| - 1]
    {
      if saved != [] {
        style := saved[|saved| - 1];
        saved := saved[..|saved| - 1];
      }
    }
  }
}
