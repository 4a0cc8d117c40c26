/**
 * The text element that the editor manipulates and the renderer draws
 * (`VideoText`), and the fixed colour palette (`GlobalColor`).
 *
 * The declaration of `VideoText` in RenderTextToVideo/Model/VideoText.swift
 * has only `id`, `text`, `initialSize`, `position` and `size`; the editor
 * builds it with an `angle` and a `fontSize`, and the renderer reads
 * `textColor`, `fontSize`, `transform` and `centerPosition`. This record
 * holds all of them. `centerPosition` and `transform` are derived from the
 * stored `position` and `angle`, which are what the editor commits.
 */
module VideoTextModel {
  import opened Wrappers
  import opened CoreGraphics

  /** The `UIColor`s of the palette. */
  datatype Color = SystemGreen | SystemPink | SystemRed | SystemTeal | SystemBlue | SystemBrown | SystemGray

  /** `GlobalColor.colors()`: every palette colour once, in a fixed order. */
  function Colors(): (palette: seq<Color>)
    ensures |palette| == 7 && palette[0] == SystemGreen && palette[6] == SystemGray
    ensures forall i, j :: 0 <= i < j < |palette| ==> palette[i] != palette[j]
  {
    [SystemGreen, SystemPink, SystemRed, SystemTeal, SystemBlue, SystemBrown, SystemGray]
  }

  /** Every colour of the palette type appears in `GlobalColor.colors()`. */
  lemma PaletteComplete(c: Color)
    ensures c in Colors()
  {
    var palette := Colors();
    match c
    case SystemGreen => assert palette[0] == c;
    case SystemPink => assert palette[1] == c;
    case SystemRed => assert palette[2] == c;
    case SystemTeal => assert palette[3] == c;
    case SystemBlue => assert palette[4] == c;
    case SystemBrown => assert palette[5] == c;
    case SystemGray => assert palette[6] == c;
  }

  datatype VideoText = VideoText(
    id: string,
    text: string,
    initialSize: Size,
    position: Point,
    size: Size,
    angle: real,
    fontSize: real,
    textColor: Option<Color>)
  {
    /** Where the renderer centres the label: the committed position. */
    function CenterPosition(): Point {
      position
    }

    /** The label's transform: the committed rotation, at scale 1. */
    function Transform(): AffineTransform {
      RotationAngle(angle)
    }
  }

  /**
   * The initializer. `id` stands for the caller's value or, when the caller
   * omits it, the fresh `UUID().uuidString`; `size` defaults to `.zero`;
   * `initialSize` is never set by the initializer and starts at `.zero`.
   */
  function NewVideoText(id: string, text: string, position: Point, angle: real, fontSize: real,
                        size: Size := SizeZero, textColor: Option<Color> := None): (v: VideoText)
    ensures v.id == id && v.text == text && v.position == position && v.size == size
    ensures v.initialSize == SizeZero
    ensures v.angle == angle && v.fontSize == fontSize && v.textColor == textColor
  {
    VideoText(id, text, SizeZero, position, size, angle, fontSize, textColor)
  }

  /** Leaving out `size` stores `.zero`. */
  lemma NewVideoTextDefaultSize(id: string, text: string, position: Point, angle: real, fontSize: real)
    ensures NewVideoText(id, text, position, angle, fontSize).size == SizeZero
  {
  }

  /** The synthesized `Equatable`: two values are equal exactly when every stored field is. */
  lemma EqualIffFieldsEqual(a: VideoText, b: VideoText)
    ensures a == b <==>
      && a.id == b.id && a.text == b.text && a.initialSize == b.initialSize
      && a.position == b.position && a.size == b.size && a.angle == b.angle
      && a.fontSize == b.fontSize && a.textColor == b.textColor
  {
  }
}
