/** The integer constants, colours and small helpers of src/const.py. */
module Const {
  import opened Optional

  const TILE_SIZE := 32
  const CLOCK_TICK := 60
  const SCREEN_X_TILES_LENGTH := 20
  const SCREEN_Y_TILES_LENGTH := 15
  const SCREEN_X_SIZE := TILE_SIZE * SCREEN_X_TILES_LENGTH
  const SCREEN_Y_SIZE := TILE_SIZE * SCREEN_Y_TILES_LENGTH
  /** Screen position of the player's tile (the player is always drawn in the middle). */
  const PLAYER_X: real := (SCREEN_X_SIZE - TILE_SIZE) as real / 2.0
  const PLAYER_Y: real := (SCREEN_Y_SIZE - TILE_SIZE) as real / 2.0
  /** The layer every entity lives on unless its kind says otherwise. */
  const DEFAULT_LAYER: nat := 1

  /** The three ball colours. */
  datatype Color = Red | Green | Blue

  function ColorName(c: Color): string {
    match c
    case Red => "red"
    case Green => "green"
    case Blue => "blue"
  }

  /** `color_to_index`; `None` stands for the `exit` the source takes on any
      other string. */
  function ColorToIndex(color: string): (r: Option<nat>)
    ensures r.Some? ==> r.value < 3
  {
    if color == "red" then Some(0)
    else if color == "green" then Some(1)
    else if color == "blue" then Some(2)
    else None
  }

  /** The index of a colour's counter in `balls_left`. */
  function Index(c: Color): (r: nat)
    ensures ColorToIndex(ColorName(c)) == Some(r)
  {
    match c
    case Red => 0
    case Green => 1
    case Blue => 2
  }

  /** The colour a string names, if any. */
  function ParseColor(s: string): (r: Option<Color>)
    ensures r.Some? ==> ColorName(r.value) == s
    ensures r.None? <==> ColorToIndex(s).None?
  {
    if s == "red" then Some(Red)
    else if s == "green" then Some(Green)
    else if s == "blue" then Some(Blue)
    else None
  }

  /** red, green and blue get the distinct indices 0, 1 and 2. */
  lemma ColorIndicesCover()
    ensures ColorToIndex("red") == Some(0)
    ensures ColorToIndex("green") == Some(1)
    ensures ColorToIndex("blue") == Some(2)
    ensures forall c: Color, d: Color :: c != d ==> Index(c) != Index(d)
    ensures (set c: Color | true :: Index(c)) == {0, 1, 2}
  {
    assert Index(Red) == 0 && Index(Green) == 1 && Index(Blue) == 2;
  }

  /** Only the three colour names have an index. */
  lemma ColorToIndexRejects(s: string)
    ensures ColorToIndex(s).Some? <==> s == "red" || s == "green" || s == "blue"
  {
  }

  /** `lwr` ("lambda wrapper"): the constant function returning `x`. */
  function Lwr<A(!new), T>(x: T): (f: A -> T)
    ensures forall a: A :: f(a) == x
  {
    _ => x
  }

  /** `in_render_range`: a screen position within one tile of the window. */
  predicate InRenderRange(x: real, y: real) {
    && -(TILE_SIZE as real) < x < (SCREEN_X_SIZE + TILE_SIZE) as real
    && -(TILE_SIZE as real) < y < (SCREEN_Y_SIZE + TILE_SIZE) as real
  }

  /** A tile `i` columns and `j` rows away from a resting player is drawn
      exactly when -10 <= i <= 11 and -7 <= j <= 8: the 20 x 15 window plus
      the partly visible ring around it. */
  lemma RenderedTiles(i: int, j: int)
    ensures InRenderRange(PLAYER_X + (i * TILE_SIZE) as real, PLAYER_Y + (j * TILE_SIZE) as real)
      <==> -10 <= i <= 11 && -7 <= j <= 8
  {
    assert PLAYER_X == 304.0 && PLAYER_Y == 224.0;
    assert (i * TILE_SIZE) as real == 32.0 * i as real;
    assert (j * TILE_SIZE) as real == 32.0 * j as real;
  }
}
