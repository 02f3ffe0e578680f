/** The arithmetic and selection logic of the line-up image builder (from_base_images.py):
    parsing a field colour, choosing and flipping the player positions, and the offsets that
    centre one layer on another. Pixels, fonts and resampling are not part of this model;
    image sizes are pairs of integers. */
module Lineup {
  import opened Python
  import opened Text

  /** `SCALE`: the canvas is drawn at twice the size of the field images. */
  const Scale: int := 2

  // ---------------------------------------------------------------------------------------------
  // Hexadecimal integers, as `int(text, 16)` reads them

  /** The value of an ASCII hexadecimal digit. */
  function HexDigit(c: char): (d: Option<nat>)
    ensures d.Some? ==> d.value < 16
    ensures d.Some? ==> c !in PyWhitespace && c != '#' && c != '_' && c != '+' && c != '-'
  {
    if '0' <= c <= '9' then Some(c as int - '0' as int)
    else if 'a' <= c <= 'f' then Some(c as int - 'a' as int + 10)
    else if 'A' <= c <= 'F' then Some(c as int - 'A' as int + 10)
    else None
  }

  predicate IsHexDigit(c: char)
  {
    HexDigit(c).Some?
  }

  /** The value of a run of hexadecimal digits and underscores, most significant first;
      underscores are skipped. */
  function HexValue(s: string): nat
    requires forall k :: 0 <= k < |s| ==> IsHexDigit(s[k]) || s[k] == '_'
    decreases |s|
  {
    if |s| == 0 then 0
    else
      var last := s[|s| - 1];
      var rest := HexValue(s[..|s| - 1]);
      if last == '_' then rest
      else
        assert IsHexDigit(s[|s| - 1]);
        rest * 16 + HexDigit(last).value
  }

  /** The digits `int` accepts after the sign and the optional `0x` prefix: hexadecimal digits,
      at least one, with single underscores between them (one may also follow the prefix). */
  predicate ValidDigits(s: string, prefixed: bool)
  {
    |s| > 0 &&
    (forall k :: 0 <= k < |s| ==> IsHexDigit(s[k]) || s[k] == '_') &&
    s[|s| - 1] != '_' &&
    (s[0] == '_' ==> prefixed) &&
    (forall k :: 0 <= k < |s| - 1 ==> !(s[k] == '_' && s[k + 1] == '_'))
  }

  /** The digits, if they are valid. */
  function Digits(s: string, prefixed: bool): Option<nat>
  {
    if ValidDigits(s, prefixed) then Some(HexValue(s)) else None
  }

  /** An unsigned literal, with or without its `0x` prefix. */
  function Unsigned(u: string): Option<nat>
  {
    if |u| >= 2 && u[0] == '0' && (u[1] == 'x' || u[1] == 'X') then Digits(u[2..], true)
    else Digits(u, false)
  }

  /** A literal with an optional sign. */
  function Signed(t: string): Option<int>
  {
    if |t| > 0 && t[0] == '-' then
      match Unsigned(t[1..])
      case None => None
      case Some(v) => var n: int := v; Some(-n)
    else if |t| > 0 && t[0] == '+' then
      match Unsigned(t[1..])
      case None => None
      case Some(v) => Some(v)
    else
      match Unsigned(t)
      case None => None
      case Some(v) => Some(v)
  }

  /** `int(text, 16)`: surrounding white space, a sign, a `0x` prefix and underscores between
      digits are accepted; anything else raises `ValueError`. */
  function ParseHex(text: string): (r: Result<int>)
    ensures r.Raise? ==> r.exc.ValueError?
  {
    match Signed(StripSpace(text))
    case None => Raise(RuntimeValueError)
    case Some(v) => Ok(v)
  }

  /** `s[i:j]` for `0 <= i <= j`: clipped to the length of `s`. */
  function Slice(s: string, i: nat, j: nat): (r: string)
    requires i <= j
    ensures |r| == (if j <= |s| then j - i else if i <= |s| then |s| - i else 0)
    ensures j <= |s| ==> r == s[i..j]
  {
    if i >= |s| then "" else if j >= |s| then s[i..] else s[i..j]
  }

  /** A text that `strip()` leaves alone: it neither starts nor ends with white space. */
  lemma {:induction false} StripUnchanged(s: string)
    requires |s| > 0 && s[0] !in PyWhitespace && s[|s| - 1] !in PyWhitespace
    ensures StripSpace(s) == s
  {
  }

  /** A colour text that starts with `#` and ends with a digit has no white space to strip. */
  lemma {:induction false} ColorUnstripped(s: string)
    requires |s| > 0 && s[0] == '#' && IsHexDigit(s[|s| - 1])
    ensures StripSpace(s) == s
  {
    StripUnchanged(s);
  }

  /** The empty text is no number. */
  lemma {:induction false} EmptyIsNoNumber()
    ensures ParseHex("").Raise?
  {
    assert StripSpace("") == "";
    assert Signed("") == None;
  }

  /** Two hexadecimal digits read as one byte. */
  lemma {:induction false} ParseTwoDigits(a: char, b: char)
    requires IsHexDigit(a) && IsHexDigit(b)
    ensures ParseHex([a, b]) == Ok(Byte(a, b))
  {
    var s := [a, b];
    StripUnchanged(s);
    assert s[..1] == [a];
    assert [a][..0] == [];
    assert HexValue([a]) == HexDigit(a).value;
    assert HexValue(s) == Byte(a, b);
    assert ValidDigits(s, false);
  }

  /** `-1`, as `int` reads it. */
  lemma {:induction false} MinusOne()
    ensures ParseHex("-1") == Ok(-1)
  {
    assert "-1"[1..] == "1";
    assert "1"[..0] == [];
    assert Unsigned("1") == Some(1);
    assert Signed("-1") == Some(-1);
    StripUnchanged("-1");
  }

  // ---------------------------------------------------------------------------------------------
  // Colours

  datatype Rgb = Rgb(r: int, g: int, b: int)

  /** The byte written as two hexadecimal digits. */
  function Byte(hi: char, lo: char): (v: int)
    requires IsHexDigit(hi) && IsHexDigit(lo)
    ensures 0 <= v <= 255
  {
    16 * HexDigit(hi).value + HexDigit(lo).value
  }

  /** The shape `hex_to_rgb` insists on, after stripping white space: a leading `#` and four or
      seven characters in all. */
  predicate HexShape(h: string)
  {
    |h| > 0 && h[0] == '#' && (|h| == 4 || |h| == 7)
  }

  /** The three components read from the pairs at 0, 2 and 4 of `d`. */
  function Components(d: string): Result<Rgb>
  {
    match ParseHex(Slice(d, 0, 2))
    case Raise(e) => Raise(e)
    case Ok(r) =>
      match ParseHex(Slice(d, 2, 4))
      case Raise(e) => Raise(e)
      case Ok(g) =>
        match ParseHex(Slice(d, 4, 6))
        case Raise(e) => Raise(e)
        case Ok(b) => Ok(Rgb(r, g, b))
  }

  /** `hex_to_rgb`, as written: after the shape check every leading `#` is removed and the
      pairs at 0, 2 and 4 are read with `int(..., 16)`. */
  function HexToRgb(color: string): (r: Result<Rgb>)
    ensures r.Ok? ==> HexShape(StripSpace(color))
    ensures r.Raise? ==> r.exc.ValueError?
  {
    Checked(StripSpace(color))
  }

  /** `hex_to_rgb` once the surrounding white space is gone. */
  function Checked(h: string): Result<Rgb>
  {
    if !HexShape(h) then Raise(ValueError("Invalid hex color: " + h))
    else Components(LStrip(h, {'#'}))
  }

  /** A single leading `#` is all `lstrip('#')` removes. */
  lemma {:induction false} DropHash(s: string)
    requires |s| >= 2 && s[0] == '#' && s[1] != '#'
    ensures LStrip(s, {'#'}) == s[1..]
  {
    assert LStrip(s[1..], {'#'}) == s[1..];
  }

  /** The text of a colour written as `#` and six hexadecimal digits. */
  predicate LongForm(color: string)
  {
    |color| == 7 && color[0] == '#' && forall k :: 1 <= k < 7 ==> IsHexDigit(color[k])
  }

  lemma {:induction false} LongFormChecked(color: string)
    requires LongForm(color)
    ensures Checked(color) == Ok(Rgb(Byte(color[1], color[2]), Byte(color[3], color[4]), Byte(color[5], color[6])))
  {
    assert IsHexDigit(color[1]);
    DropHash(color);
    var d := color[1..];
    assert Slice(d, 0, 2) == [color[1], color[2]];
    assert Slice(d, 2, 4) == [color[3], color[4]];
    assert Slice(d, 4, 6) == [color[5], color[6]];
    ParseTwoDigits(color[1], color[2]);
    ParseTwoDigits(color[3], color[4]);
    ParseTwoDigits(color[5], color[6]);
  }

  /** `#RRGGBB` gives the three bytes RR, GG and BB, each between 0 and 255. */
  lemma {:induction false} LongFormColor(color: string)
    requires LongForm(color)
    ensures HexToRgb(color) == Ok(Rgb(Byte(color[1], color[2]), Byte(color[3], color[4]), Byte(color[5], color[6])))
  {
    LongFormChecked(color);
    ColorUnstripped(color);
  }

  /** A text without the shape is refused with the stripped text in the message. */
  lemma {:induction false} ShapeRequired(color: string)
    requires !HexShape(StripSpace(color))
    ensures HexToRgb(color) == Raise(ValueError("Invalid hex color: " + StripSpace(color)))
  {
  }

  lemma {:induction false} ShortFormChecked(h: string)
    requires HexShape(h) && |h| == 4
    ensures Checked(h).Raise?
  {
    var d := LStrip(h, {'#'});
    assert |d| <= 3;
    assert Slice(d, 4, 6) == "";
    EmptyIsNoNumber();
    ThirdPairRaises(d);
  }

  /** A third pair `int` refuses makes the whole colour fail, whatever the first two hold. */
  lemma {:induction false} ThirdPairRaises(d: string)
    requires ParseHex(Slice(d, 4, 6)).Raise?
    ensures Components(d).Raise?
  {
  }

  /** The short form `#RGB` passes the shape check but never succeeds: after the `#` at most three
      characters are left, so the third slice is empty and `int('', 16)` raises. */
  lemma {:induction false} ShortFormAlwaysRaises(color: string)
    requires HexShape(StripSpace(color)) && |StripSpace(color)| == 4
    ensures HexToRgb(color).Raise?
  {
    ShortFormChecked(StripSpace(color));
  }

  /** Every `#RGB` colour is refused, though CSS reads it as `#RRGGBB`; the corrected parser
      accepts it. */
  lemma {:induction false} ShortFormRefused(color: string)
    requires |color| == 4 && color[0] == '#' && forall k :: 1 <= k < 4 ==> IsHexDigit(color[k])
    ensures HexToRgb(color).Raise?
    ensures HexToRgbExpanded(color).Ok?
  {
    ShortFormChecked(color);
    ShortFormExpands(color);
    assert IsHexDigit(color[3]);
    StripUnchanged(color);
  }

  lemma {:induction false} SignedChecked()
    ensures Checked("#-1-1-1") == Ok(Rgb(-1, -1, -1))
  {
    var c := "#-1-1-1";
    DropHash(c);
    assert c[1..] == "-1-1-1";
    SignedPairs();
  }

  lemma {:induction false} SignedPairs()
    ensures Components("-1-1-1") == Ok(Rgb(-1, -1, -1))
  {
    var d := "-1-1-1";
    assert Slice(d, 0, 2) == "-1" && Slice(d, 2, 4) == "-1" && Slice(d, 4, 6) == "-1";
    MinusOne();
  }

  /** `#-1-1-1` passes the shape check and `int` accepts the signs, so the "colour" has three
      negative components. */
  lemma {:induction false} SignedComponents()
    ensures HexToRgb("#-1-1-1") == Ok(Rgb(-1, -1, -1))
  {
    SignedChecked();
    SignedUnstripped();
  }

  lemma {:induction false} SignedUnstripped()
    ensures StripSpace("#-1-1-1") == "#-1-1-1"
  {
    ColorUnstripped("#-1-1-1");
  }

  /** `#` and three or six hexadecimal digits. */
  predicate ValidColor(h: string)
  {
    HexShape(h) && forall k :: 1 <= k < |h| ==> IsHexDigit(h[k])
  }

  /** The colour parser as evidently intended: exactly one `#` followed by three or six
      hexadecimal digits, a three-digit colour standing for each digit written twice. */
  function HexToRgbExpanded(color: string): (r: Result<Rgb>)
    ensures r.Ok? <==> ValidColor(StripSpace(color))
    ensures r.Ok? ==> 0 <= r.value.r <= 255 && 0 <= r.value.g <= 255 && 0 <= r.value.b <= 255
  {
    var h := StripSpace(color);
    if !ValidColor(h) then Raise(ValueError("Invalid hex color: " + h))
    else if |h| == 4 then Ok(Rgb(Byte(h[1], h[1]), Byte(h[2], h[2]), Byte(h[3], h[3])))
    else Ok(Rgb(Byte(h[1], h[2]), Byte(h[3], h[4]), Byte(h[5], h[6])))
  }

  /** The corrected parser agrees with the written one on every six-digit colour. */
  lemma {:induction false} ExpandedAgreesOnLongForm(color: string)
    requires LongForm(color)
    ensures HexToRgbExpanded(color) == HexToRgb(color)
  {
    LongFormColor(color);
    assert IsHexDigit(color[6]);
    StripUnchanged(color);
  }

  /** The corrected parser reads `#RGB` as `#RRGGBB`. */
  lemma {:induction false} ShortFormExpands(color: string)
    requires |color| == 4 && color[0] == '#' && forall k :: 1 <= k < 4 ==> IsHexDigit(color[k])
    ensures HexToRgbExpanded(color) ==
            Ok(Rgb(Byte(color[1], color[1]), Byte(color[2], color[2]), Byte(color[3], color[3])))
  {
    assert IsHexDigit(color[3]);
    StripUnchanged(color);
  }

  // ---------------------------------------------------------------------------------------------
  // ---------------------------------------------------------------------------------------------
  // Positions

  /** A player position: shirt number and relative pitch coordinates. The coordinates are
      modelled as exact reals. */
  datatype Position = Position(number: int, x: real, y: real)

  /** The `formations` table: a formation code to its coordinates. */
  type Formations = map<string, seq<(real, real)>>

  /** The positions of a formation, numbered from 1 in coordinate order. */
  function Generated(coords: seq<(real, real)>): (ps: seq<Position>)
    ensures |ps| == |coords|
    ensures forall i :: 0 <= i < |ps| ==> ps[i] == Position(i + 1, coords[i].0, coords[i].1)
  {
    seq(|coords|, i requires 0 <= i < |coords| => Position(i + 1, coords[i].0, coords[i].1))
  }

  /** Every position mirrored top to bottom. */
  function Flipped(ps: seq<Position>): seq<Position>
  {
    seq(|ps|, i requires 0 <= i < |ps| => ps[i].(y := 1.0 - ps[i].y))
  }

  /** The positions `get_formation_positions` starts from: the configured ones when there are
      any; otherwise those of the named formation, which must exist; otherwise none. */
  function SelectPositions(explicit: seq<Position>, formation: Option<string>, formations: Formations): Result<seq<Position>>
  {
    if |explicit| > 0 || formation.None? then Ok(explicit)
    else if formation.value !in formations then Raise(ValueError("Formation '" + formation.value + "' is not defined."))
    else Ok(Generated(formations[formation.value]))
  }

  /** `get_formation_positions`: the selected positions, at least eleven, flipped on request. */
  function FormationPositions(explicit: seq<Position>, flip: bool, formation: Option<string>, formations: Formations)
    : (r: Result<seq<Position>>)
    ensures r.Ok? ==> |r.value| >= 11
    ensures r.Raise? ==> r.exc.ValueError?
  {
    match SelectPositions(explicit, formation, formations)
    case Raise(e) => Raise(e)
    case Ok(ps) =>
      if |ps| < 11 then Raise(ValueError("Not enough players defined. A full lineup requires 11 players."))
      else Ok(if flip then Flipped(ps) else ps)
  }

  /** Configured positions win; a formation is used only when there are none, and an unknown
      code raises. */
  lemma {:induction false} SelectionPrecedence(explicit: seq<Position>, formation: Option<string>, formations: Formations)
    ensures |explicit| > 0 ==> SelectPositions(explicit, formation, formations) == Ok(explicit)
    ensures |explicit| == 0 && formation.Some? && formation.value in formations ==>
              SelectPositions(explicit, formation, formations) == Ok(Generated(formations[formation.value]))
    ensures |explicit| == 0 && formation.Some? && formation.value !in formations ==>
              SelectPositions(explicit, formation, formations).Raise?
  {
  }

  /** A line-up comes out only with at least eleven positions; it keeps their count, order,
      numbers and horizontal coordinates, and changes the vertical ones exactly when flipped. */
  lemma {:induction false} PositionsKeepShape(explicit: seq<Position>, flip: bool, formation: Option<string>, formations: Formations)
    requires FormationPositions(explicit, flip, formation, formations).Ok?
    ensures var ps := SelectPositions(explicit, formation, formations).value;
            var out := FormationPositions(explicit, flip, formation, formations).value;
            |out| == |ps| >= 11 &&
            forall i :: 0 <= i < |out| ==>
              out[i].number == ps[i].number && out[i].x == ps[i].x &&
              out[i].y == (if flip then 1.0 - ps[i].y else ps[i].y)
  {
  }

  /** Fewer than eleven positions, configured or generated, raise. */
  lemma {:induction false} TooFewRaise(explicit: seq<Position>, flip: bool, formation: Option<string>, formations: Formations)
    requires SelectPositions(explicit, formation, formations).Ok?
    requires |SelectPositions(explicit, formation, formations).value| < 11
    ensures FormationPositions(explicit, flip, formation, formations).Raise?
  {
  }

  /** Mirroring is its own inverse: a configuration whose positions were flipped in place by one
      call is flipped back by the next. */
  lemma {:induction false} FlipTwice(ps: seq<Position>)
    ensures Flipped(Flipped(ps)) == ps
  {
  }

  /** Mirrors every position of the list in place: `pos["y"] = 1.0 - pos["y"]`. */
  method FlipVertical(a: array<Position>)
    modifies a
    ensures a[..] == Flipped(old(a[..]))
  {
    var i := 0;
    while i < a.Length
      invariant 0 <= i <= a.Length
      invariant forall k :: 0 <= k < i ==> a[k] == old(a[k]).(y := 1.0 - old(a[k]).y)
      invariant forall k :: i <= k < a.Length ==> a[k] == old(a[k])
    {
      a[i] := a[i].(y := 1.0 - a[i].y);
      i := i + 1;
    }
  }

  /** `get_formation_positions` on a configuration whose `positions` list is `config` (empty when
      the key is missing). The configured list is the one returned and the one flipped, so the
      caller's configuration changes with it; a generated list is new. Nothing changes when it
      raises. */
  method GetFormationPositions(config: array<Position>, flip: bool, formation: Option<string>, formations: Formations)
    returns (r: Result<array<Position>>)
    modifies config
    ensures var spec := FormationPositions(old(config[..]), flip, formation, formations);
            r.Ok? == spec.Ok? &&
            (r.Ok? ==> r.value[..] == spec.value) &&
            (r.Raise? ==> r.exc == spec.exc)
    ensures r.Ok? && config.Length > 0 ==> r.value == config
    ensures r.Ok? && config.Length == 0 ==> fresh(r.value)
    ensures r.Raise? || config.Length == 0 || !flip ==> config[..] == old(config[..])
  {
    var selected := SelectArray(config, formation, formations);
    if selected.Raise? {
      return Raise(selected.exc);
    }
    var positions := selected.value;
    if positions.Length < 11 {
      return Raise(ValueError("Not enough players defined. A full lineup requires 11 players."));
    }
    if flip {
      FlipVertical(positions);
    }
    return Ok(positions);
  }

  /** The list `get_formation_positions` works on: the configured one, or else a new one built
      from the formation. */
  method SelectArray(config: array<Position>, formation: Option<string>, formations: Formations)
    returns (r: Result<array<Position>>)
    ensures r.Ok? == SelectPositions(config[..], formation, formations).Ok?
    ensures r.Ok? ==> r.value[..] == SelectPositions(config[..], formation, formations).value
    ensures r.Raise? ==> r.exc == SelectPositions(config[..], formation, formations).exc
    ensures r.Ok? && config.Length > 0 ==> r.value == config
    ensures r.Ok? && config.Length == 0 ==> r.value == config || fresh(r.value)
  {
    var positions := config;
    if positions.Length == 0 && formation.Some? {
      if formation.value !in formations {
        return Raise(ValueError("Formation '" + formation.value + "' is not defined."));
      }
      positions := NewPositions(formations[formation.value]);
    }
    return Ok(positions);
  }

  /** A new list of the positions of a formation. */
  method NewPositions(coords: seq<(real, real)>) returns (a: array<Position>)
    ensures fresh(a)
    ensures a[..] == Generated(coords)
  {
    a := new Position[|coords|](i requires 0 <= i < |coords| => Position(i + 1, coords[i].0, coords[i].1));
  }

  // ---------------------------------------------------------------------------------------------
  // Centring

  /** The offset `paste_centered` pastes an overlay at: half the difference of the sizes, rounded
      down (Python's `//`), so the overlay sits in the middle, one pixel nearer the top left when
      the difference is odd, and sticks out evenly when it is larger. */
  function PasteCentered(base: (int, int), overlay: (int, int)): (offset: (int, int))
    ensures 0 <= (base.0 - overlay.0) - 2 * offset.0 <= 1
    ensures 0 <= (base.1 - overlay.1) - 2 * offset.1 <= 1
  {
    ((base.0 - overlay.0) / 2, (base.1 - overlay.1) / 2)
  }

  /** The layout `create_field_with_layers` builds: the canvas size and fill colour, where the
      stripes and the lines go, and the size of the lines layer, the area players are placed in. */
  datatype Field = Field(canvas: (int, int), fill: (int, int, int, int), stripesOffset: (int, int),
                         linesOffset: (int, int), linesArea: (int, int))

  /** `create_field_with_layers` for a stripes image and a lines image of the given sizes: the
      colour is parsed after the canvas size is known and before anything is drawn. */
  function CreateFieldWithLayers(fieldColor: string, stripes: (nat, nat), lines: (nat, nat)): (r: Result<Field>)
    ensures r.Ok? <==> HexToRgb(fieldColor).Ok?
    ensures r.Raise? ==> r.exc == HexToRgb(fieldColor).exc
  {
    match HexToRgb(fieldColor)
    case Raise(e) => Raise(e)
    case Ok(c) => Ok(Layout(c, stripes, lines))
  }

  /** The layout once the field colour is known. */
  function Layout(c: Rgb, stripes: (nat, nat), lines: (nat, nat)): Field
  {
    var canvas := (stripes.0 * Scale, stripes.1 * Scale);
    var stripesScaled := (stripes.0 * Scale, stripes.1 * Scale);
    var linesScaled := (lines.0 * Scale, lines.1 * Scale);
    Field(canvas, (c.r, c.g, c.b, 255),
          ((canvas.0 - stripesScaled.0) / 2, (canvas.1 - stripesScaled.1) / 2),
          ((canvas.0 - linesScaled.0) / 2, (canvas.1 - linesScaled.1) / 2),
          linesScaled)
  }

  /** The stripes, scaled to the canvas size, sit at the origin; the lines are centred on the
      canvas, which with both layers doubled puts them at the difference of the original sizes;
      the field colour is the parsed one, opaque. */
  lemma {:induction false} FieldOffsets(fieldColor: string, stripes: (nat, nat), lines: (nat, nat))
    requires HexToRgb(fieldColor).Ok?
    ensures var c := HexToRgb(fieldColor).value;
            var f := CreateFieldWithLayers(fieldColor, stripes, lines).value;
            CreateFieldWithLayers(fieldColor, stripes, lines).Ok? &&
            f.canvas == (2 * stripes.0, 2 * stripes.1) &&
            f.stripesOffset == (0, 0) &&
            f.linesOffset == PasteCentered(f.canvas, f.linesArea) &&
            f.linesOffset == (stripes.0 - lines.0, stripes.1 - lines.1) &&
            f.linesArea == (2 * lines.0, 2 * lines.1) &&
            f.fill == (c.r, c.g, c.b, 255)
  {
    var c := HexToRgb(fieldColor).value;
    assert CreateFieldWithLayers(fieldColor, stripes, lines) == Ok(Layout(c, stripes, lines));
    LayoutOffsets(c, stripes, lines);
  }

  lemma {:induction false} LayoutOffsets(c: Rgb, stripes: (nat, nat), lines: (nat, nat))
    ensures var f := Layout(c, stripes, lines);
            f.canvas == (2 * stripes.0, 2 * stripes.1) &&
            f.stripesOffset == (0, 0) &&
            f.linesOffset == PasteCentered(f.canvas, f.linesArea) &&
            f.linesOffset == (stripes.0 - lines.0, stripes.1 - lines.1) &&
            f.linesArea == (2 * lines.0, 2 * lines.1)
  {
    assert Scale == 2;
  }

  /** A colour the parser refuses stops the field before anything is placed. */
  lemma {:induction false} FieldNeedsColor(fieldColor: string, stripes: (nat, nat), lines: (nat, nat))
    requires HexToRgb(fieldColor).Raise?
    ensures CreateFieldWithLayers(fieldColor, stripes, lines) == Raise(HexToRgb(fieldColor).exc)
  {
  }
}
