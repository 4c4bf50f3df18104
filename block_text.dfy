// NTImageBlockTextEffect without its drawing: the text and alpha properties, the
// row breaker loop, the anchor offset and the typed key/value store.
module BlockText {
  import opened Options
  import opened Geometry
  import opened AnchorPositions
  import opened TextLayout

  const SystemFont12: Font := Font("System", 12.0)
  const ClearColor: Color := Color(0.0, 0.0, 0.0, 0.0)

  // ---------------------------------------------------------------------------
  // Capitalisation

  function UpperChar(c: char): (u: char)
  {
    if 'a' <= c <= 'z' then (c as int - 32) as char else c
  }

  /** `uppercased`, restricted to the ASCII letters. */
  function Uppercased(s: string): (r: string)
    ensures |r| == |s|
    ensures forall i :: 0 <= i < |s| ==> r[i] == UpperChar(s[i])
    ensures forall i :: 0 <= i < |r| ==> !('a' <= r[i] <= 'z')
  {
    if |s| == 0 then "" else [UpperChar(s[0])] + Uppercased(s[1..])
  }

  /** Uppercasing twice is uppercasing once. */
  lemma UppercasedIdempotent(s: string)
    ensures Uppercased(Uppercased(s)) == Uppercased(s)
  {
  }

  // ---------------------------------------------------------------------------
  // The alpha property's didSet clamp

  function ClampAlpha(a: real): (r: real)
    ensures 0.0 <= r <= 1.0
    ensures 0.0 <= a <= 1.0 ==> r == a
    ensures a < 0.0 ==> r == 0.0
    ensures a > 1.0 ==> r == 1.0
  {
    var r := if a < 0.0 then 0.0 else a;
    if r > 1.0 then 1.0 else r
  }

  // ---------------------------------------------------------------------------
  // The mock KVO store

  /** The `Any` values passed to and returned by the key/value store, by dynamic type. */
  datatype Value =
    | PointValue(point: Point)                 // CGPoint
    | AnchorValue(position: AnchorPosition)    // NTImageEffectAnchorPosition
    | CGFloatValue(cgFloat: real)              // CGFloat
    | FloatValue(float: real)                  // Float
    | StringValue(str: string)                // String
    | NSStringValue(nsString: string)          // NSString
    | FontValue(font: Font)                    // UIFont
    | ColorValue(color: Color)                 // UIColor
    | BoolValue(boolean: bool)                 // Bool
    | OtherValue                               // a value of any other type

  /** The stored properties of the effect that the store reads and writes. */
  datatype Settings = Settings(
    anchor: Point,
    anchorPosition: AnchorPosition,
    width: real,
    rawText: string,
    font: Font,
    fontColor: Color,
    trailingTargetCharacterThreshold: real,
    capitalize: bool,
    alpha: real)

  function AcceptedKeys(): (keys: seq<string>)
    ensures |keys| == 9
  {
    ["anchor", "anchorPosition", "width", "text", "font", "fontColor",
     "trailingTargetCharacterThreshold", "capitalize", "alpha"]
  }

  /** The dynamic types each key accepts, as a table. */
  predicate Accepts(key: string, v: Value)
  {
    || (key == "anchor" && v.PointValue?)
    || (key == "anchorPosition" && v.AnchorValue?)
    || (key == "width" && (v.CGFloatValue? || v.FloatValue?))
    || (key == "text" && (v.StringValue? || v.NSStringValue?))
    || (key == "font" && v.FontValue?)
    || (key == "fontColor" && v.ColorValue?)
    || (key == "trailingTargetCharacterThreshold" && (v.FloatValue? || v.CGFloatValue?))
    || (key == "capitalize" && v.BoolValue?)
    || (key == "alpha" && (v.CGFloatValue? || v.FloatValue? || v.BoolValue?))
  }

  /**
   * A CGFloat for "trailingTargetCharacterThreshold" passes the `is CGFloat` test and then
   * fails the forced `as! Float` cast, which stops the program.
   */
  predicate CastTraps(key: string, v: Value)
  {
    key == "trailingTargetCharacterThreshold" && v.CGFloatValue?
  }

  /** changeValueOf(_:to:) on the stored values: None is the `false` return, which changes nothing. */
  function Change(s: Settings, key: string, v: Value): (r: Option<Settings>)
    requires !CastTraps(key, v)
    ensures key !in AcceptedKeys() ==> r == None
    ensures r.Some? <==> Accepts(key, v)
    ensures r.Some? && 0.0 <= s.alpha <= 1.0 ==> 0.0 <= r.value.alpha <= 1.0
  {
    if key !in AcceptedKeys() then None
    else if key == "anchor" then
      if v.PointValue? then Some(s.(anchor := v.point)) else None
    else if key == "anchorPosition" then
      if v.AnchorValue? then Some(s.(anchorPosition := v.position)) else None
    else if key == "width" then
      if v.CGFloatValue? then Some(s.(width := v.cgFloat))
      else if v.FloatValue? then Some(s.(width := v.float))
      else None
    else if key == "text" then
      if v.StringValue? then Some(s.(rawText := v.str))
      else if v.NSStringValue? then Some(s.(rawText := v.nsString))
      else None
    else if key == "font" then
      if v.FontValue? then Some(s.(font := v.font)) else None
    else if key == "fontColor" then
      if v.ColorValue? then Some(s.(fontColor := v.color)) else None
    else if key == "trailingTargetCharacterThreshold" then
      if v.FloatValue? then Some(s.(trailingTargetCharacterThreshold := v.float)) else None
    else if key == "capitalize" then
      if v.BoolValue? then Some(s.(capitalize := v.boolean)) else None
    else
      assert key == "alpha";
      if v.CGFloatValue? then Some(s.(alpha := ClampAlpha(v.cgFloat)))
      else if v.FloatValue? then Some(s.(alpha := ClampAlpha(v.float)))
      else if v.BoolValue? then Some(s.(alpha := if v.boolean then 1.0 else 0.0))
      else None
  }

  /** getValueOf(_:): the stored value of an accepted key; the text comes back unmodified. */
  function Get(s: Settings, key: string): (r: Option<Value>)
    ensures r.None? <==> key !in AcceptedKeys()
  {
    if key == "anchor" then Some(PointValue(s.anchor))
    else if key == "anchorPosition" then Some(AnchorValue(s.anchorPosition))
    else if key == "width" then Some(CGFloatValue(s.width))
    else if key == "text" then Some(NSStringValue(s.rawText))
    else if key == "font" then Some(FontValue(s.font))
    else if key == "fontColor" then Some(ColorValue(s.fontColor))
    else if key == "trailingTargetCharacterThreshold" then Some(FloatValue(s.trailingTargetCharacterThreshold))
    else if key == "capitalize" then Some(BoolValue(s.capitalize))
    else if key == "alpha" then Some(CGFloatValue(s.alpha))
    else None
  }

  /** What getValueOf returns for a key after a successful changeValueOf with `v`. */
  function StoredAs(key: string, v: Value): Value
  {
    match v
    case FloatValue(f) => if key == "trailingTargetCharacterThreshold" then v
                          else CGFloatValue(if key == "alpha" then ClampAlpha(f) else f)
    case CGFloatValue(f) => if key == "alpha" then CGFloatValue(ClampAlpha(f)) else v
    case StringValue(str) => NSStringValue(str)
    case BoolValue(b) => if key == "alpha" then CGFloatValue(if b then 1.0 else 0.0) else v
    case _ => v
  }

  /** Round trip: a value the store accepts reads back as stored (converted, clamped). */
  lemma ChangeThenGet(s: Settings, key: string, v: Value)
    requires !CastTraps(key, v) && Accepts(key, v)
    ensures Change(s, key, v).Some?
    ensures Get(Change(s, key, v).value, key) == Some(StoredAs(key, v))
  {
  }

  /** A change touches only the key it names. */
  lemma ChangeLeavesOtherKeys(s: Settings, key: string, v: Value, other: string)
    requires !CastTraps(key, v) && Change(s, key, v).Some? && other != key
    ensures Get(Change(s, key, v).value, other) == Get(s, other)
  {
  }

  /** Setting "alpha" to a Bool stores exactly 1 or 0. */
  lemma AlphaFromBool(s: Settings, b: bool)
    ensures Change(s, "alpha", BoolValue(b)) == Some(s.(alpha := if b then 1.0 else 0.0))
  {
  }

  // ---------------------------------------------------------------------------
  // The effect

  class BlockTextEffect {
    var anchor: Point
    var anchorPosition: AnchorPosition
    var width: real
    var rawText: string      // `_text`, returned unmodified by `rawText`
    var font: Font
    var fontColor: Color
    var trailingTargetCharacterThreshold: real
    var capitalize: bool
    var alpha: real

    ghost predicate Valid()
      reads this
    {
      0.0 <= alpha <= 1.0
    }

    function State(): Settings
      reads this
    {
      Settings(anchor, anchorPosition, width, rawText, font, fontColor,
               trailingTargetCharacterThreshold, capitalize, alpha)
    }

    /** init() with the property defaults. */
    constructor ()
      ensures Valid()
      ensures State() == Settings(Point(0.0, 0.0), AnchorPosition.Center, 0.0, "", SystemFont12,
                                  ClearColor, 0.33, false, 1.0)
    {
      anchor := Point(0.0, 0.0);
      anchorPosition := AnchorPosition.Center;
      width := 0.0;
      rawText := "";
      font := SystemFont12;
      fontColor := ClearColor;
      trailingTargetCharacterThreshold := 0.33;
      capitalize := false;
      alpha := 1.0;
    }

    /** The `text` getter: uppercased when `capitalize` is set. */
    function Text(): (r: string)
      reads this
      ensures !capitalize ==> r == rawText
      ensures capitalize ==> r == Uppercased(rawText)
    {
      if capitalize then Uppercased(rawText) else rawText
    }

    /** The `text` setter stores the value as given. */
    method SetText(newValue: string)
      modifies this
      ensures State() == old(State()).(rawText := newValue)
    {
      rawText := newValue;
    }

    /** Assigning `alpha`; its didSet clamps the value into [0, 1]. */
    method SetAlpha(newValue: real)
      modifies this
      ensures Valid()
      ensures State() == old(State()).(alpha := ClampAlpha(newValue))
    {
      alpha := newValue;
      if alpha < 0.0 { alpha := 0.0; }
      if alpha > 1.0 { alpha := 1.0; }
    }

    /** changeValueOf(_:to:) */
    method ChangeValueOf(key: string, obj: Value) returns (ok: bool)
      requires Valid() && !CastTraps(key, obj)
      modifies this
      ensures Valid()
      ensures ok == Change(old(State()), key, obj).Some?
      ensures State() == if ok then Change(old(State()), key, obj).value else old(State())
    {
      if key !in AcceptedKeys() {
        return false;
      }
      ok := true;
      match key
      case "anchor" =>
        if obj.PointValue? { anchor := obj.point; } else { ok := false; }
      case "anchorPosition" =>
        if obj.AnchorValue? { anchorPosition := obj.position; } else { ok := false; }
      case "width" =>
        if obj.CGFloatValue? { width := obj.cgFloat; }
        else if obj.FloatValue? { width := obj.float; }
        else { ok := false; }
      case "text" =>
        if obj.StringValue? { SetText(obj.str); }
        else if obj.NSStringValue? { SetText(obj.nsString); }
        else { ok := false; }
      case "font" =>
        if obj.FontValue? { font := obj.font; } else { ok := false; }
      case "fontColor" =>
        if obj.ColorValue? { fontColor := obj.color; } else { ok := false; }
      case "trailingTargetCharacterThreshold" =>
        if obj.FloatValue? { trailingTargetCharacterThreshold := obj.float; } else { ok := false; }
      case "capitalize" =>
        if obj.BoolValue? { capitalize := obj.boolean; } else { ok := false; }
      case "alpha" =>
        if obj.CGFloatValue? { SetAlpha(obj.cgFloat); }
        else if obj.FloatValue? { SetAlpha(obj.float); }
        else if obj.BoolValue? { SetAlpha(if obj.boolean then 1.0 else 0.0); }
        else { ok := false; }
      case _ =>
        ok := false;
    }

    /** getValueOf(_:) */
    function GetValueOf(key: string): Option<Value>
      reads this
    {
      Get(State(), key)
    }

    /**
     * calculateOffsetFrom(_:): the top-left corner of a block of the given size whose
     * anchor is at `anchor`, the anchor sitting where `anchorPosition` names.
     */
    function CalculateOffsetFrom(size: Size): (r: Point)
      reads this
      ensures r.x == anchor.x - HFraction(HorizontalOf(anchorPosition)) * size.width
      ensures r.y == anchor.y - VFraction(VerticalOf(anchorPosition)) * size.height
    {
      var xLeft := anchor.x;
      var xCenter := anchor.x - size.width / 2.0;
      var xRight := anchor.x - size.width;
      var yTop := anchor.y;
      var yCenter := anchor.y - size.height / 2.0;
      var yBottom := anchor.y - size.height;
      match anchorPosition
      case Center => Point(xCenter, yCenter)
      case CenterLeft => Point(xLeft, yCenter)
      case CenterRight => Point(xRight, yCenter)
      case CenterTop => Point(xCenter, yTop)
      case CenterBottom => Point(xCenter, yBottom)
      case TopLeft => Point(xLeft, yTop)
      case TopRight => Point(xRight, yTop)
      case BottomLeft => Point(xLeft, yBottom)
      case BottomRight => Point(xRight, yBottom)
    }

    /**
     * generateTextRows(fromString:withTarget:): greedy packing of the space-separated words
     * of `str` into rows near `targetCharacters` characters.
     */
    method GenerateTextRowsFromString(str: string, targetCharacters: int) returns (rows: seq<string>)
      requires NoStall(Split(str, Space), targetCharacters)
      ensures rows == BreakLine(str, targetCharacters, trailingTargetCharacterThreshold)
    {
      var words := Split(str, Space);
      var t := targetCharacters;
      rows := [];
      var stringA, stringB := "", "";
      var wordIndex: int := 0;
      while wordIndex < |words|
        invariant 0 <= wordIndex <= |words|
        invariant stringA == stringB
        invariant Pack(words, wordIndex, stringB, rows, t) == Pack(words, 0, "", [], t)
        decreases |words| - wordIndex, if stringB == "" then 0 else 1
      {
        ghost var old_index, old_rows := wordIndex, rows;
        ghost var st := BreakStep(stringB, words[wordIndex], t);
        assert Pack(words, wordIndex, stringB, rows, t)
            == Pack(words, if st.advance then wordIndex + 1 else wordIndex, st.acc, rows + st.emitted, t);
        if stringB != "" {
          stringB := stringB + " ";
        }
        stringB := stringB + words[wordIndex];
        if |stringB| > t {
          var aDiff := Abs(|stringA| - t);
          var bDiff := Abs(|stringB| - t);
          if aDiff < bDiff {
            rows := rows + [stringA];
            wordIndex := wordIndex - 1; // the word is read again
          } else {
            rows := rows + [stringB];
          }
          stringA := "";
          stringB := "";
        }
        wordIndex := wordIndex + 1;
        stringA := stringB;
        assert wordIndex == (if st.advance then old_index + 1 else old_index);
        assert stringB == st.acc;
        assert rows == old_rows + st.emitted;
      }
      // the trailing remainder
      if stringB != "" {
        if (|stringB| as real) < (t as real) * trailingTargetCharacterThreshold && |rows| > 0 {
          rows := rows[..|rows| - 1] + [rows[|rows| - 1] + " " + stringB];
        } else {
          rows := rows + [stringB];
        }
      }
    }

    /**
     * generateTextRows(): the text's newline-separated lines, trimmed, each broken into
     * rows, concatenated; the words of the rows are the words of the trimmed lines.
     */
    function GenerateTextRows(targetCharacters: int): (rows: seq<string>)
      reads this
      requires TextBreakable(Text(), targetCharacters)
      ensures RowWords(rows) == LineWords(Split(Text(), Newlines))
    {
      TextRowsWords(Text(), targetCharacters, trailingTargetCharacterThreshold);
      TextRows(Text(), targetCharacters, trailingTargetCharacterThreshold)
    }
  }
}
