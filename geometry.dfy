/** Points, directions, the truncation of Python's `int()` and the four zone
    predicates of game.py. */
module Geometry {
  import opened Settings

  /** Positions are integer pairs: every position the program stores is the
      result of `int()` on both coordinates. */
  datatype Point = Point(x: int, y: int)

  /** A direction, (cos a, sin a) for an angle a in the program. */
  datatype Vec = Vec(dx: real, dy: real)

  /** Python's `int()` on a float: truncation toward zero. */
  function Trunc(r: real): (n: int)
    ensures 0.0 <= r ==> 0 <= n && n as real <= r < n as real + 1.0
    ensures r < 0.0 ==> n <= 0 && n as real - 1.0 < r <= n as real
  {
    if r >= 0.0 then r.Floor else -((-r).Floor)
  }

  /** `in_allowed_rec_w`: the two corridors a character may use, left and
      right of the central strip. The bounds 2W/5 and 3W/5 are compared as
      reals, as Python's true division makes them floats. */
  predicate InAllowedRecW(cfg: Config, x: int) {
    (0.0 < x as real < 2.0 * cfg.width as real / 5.0) ||
    (3.0 * cfg.width as real / 5.0 < x as real < cfg.width as real)
  }

  /** `in_allowed_rec_h`. */
  predicate InAllowedRecH(cfg: Config, y: int) {
    0 < y < cfg.height
  }

  /** `in_allowed_rec`: where a character may stand. */
  predicate InAllowedRec(cfg: Config, p: Point) {
    InAllowedRecW(cfg, p.x) && InAllowedRecH(cfg, p.y)
  }

  /** `in_window`: where a ball may fly. */
  predicate InWindow(cfg: Config, p: Point) {
    0 < p.x < cfg.width && 0 < p.y < cfg.height
  }

  /** The corridors in integer terms: all four bounds 0, 2W/5, 3W/5 and W
      are excluded, and so is everything between 2W/5 and 3W/5. */
  lemma AllowedWIntegerForm(cfg: Config, x: int)
    ensures InAllowedRecW(cfg, x) <==>
            (0 < 5 * x < 2 * cfg.width) || (3 * cfg.width < 5 * x < 5 * cfg.width)
  {
    var w, r := cfg.width as real, x as real;
    assert (5 * x) as real == 5.0 * r;
    assert (2 * cfg.width) as real == 2.0 * w;
    assert (3 * cfg.width) as real == 3.0 * w;
    assert (r < 2.0 * w / 5.0) <==> (5.0 * r < 2.0 * w);
    assert (3.0 * w / 5.0 < r) <==> (3.0 * w < 5.0 * r);
  }

  /** The central strip, bounds included, is forbidden to characters. */
  lemma CentralStripForbidden(cfg: Config, x: int)
    requires 2 * cfg.width <= 5 * x <= 3 * cfg.width
    ensures !InAllowedRecW(cfg, x)
  {
    AllowedWIntegerForm(cfg, x);
  }

  /** The two corridors are mirror images of each other about the centre. */
  lemma AllowedWMirror(cfg: Config, x: int)
    ensures InAllowedRecW(cfg, x) <==> InAllowedRecW(cfg, cfg.width - x)
  {
    AllowedWIntegerForm(cfg, x);
    AllowedWIntegerForm(cfg, cfg.width - x);
  }

  /** The character zone is a subset of the window. */
  lemma AllowedInWindow(cfg: Config, p: Point)
    requires InAllowedRec(cfg, p)
    ensures InWindow(cfg, p)
  {
    AllowedWIntegerForm(cfg, p.x);
  }

  /** A point of the window that a character may not occupy lies in the
      central strip. */
  lemma WindowOutsideAllowed(cfg: Config, p: Point)
    requires InWindow(cfg, p) && !InAllowedRec(cfg, p)
    ensures 2 * cfg.width <= 5 * p.x <= 3 * cfg.width
  {
    AllowedWIntegerForm(cfg, p.x);
  }

  /** The start positions main.py gives the two characters,
      (int(w/4), int(h/2)) and (int(3w/4), int(h/2)), are in the allowed
      zone once the window is at least 6 pixels wide and 2 high. */
  lemma StartPositionsAllowed(cfg: Config)
    requires cfg.width >= 6 && cfg.height >= 2
    ensures InAllowedRec(cfg, Point(Trunc(cfg.width as real / 4.0), Trunc(cfg.height as real / 2.0)))
    ensures InAllowedRec(cfg, Point(Trunc(3.0 * cfg.width as real / 4.0), Trunc(cfg.height as real / 2.0)))
  {
    var w := cfg.width;
    var a, b, c := Trunc(w as real / 4.0), Trunc(3.0 * w as real / 4.0), Trunc(cfg.height as real / 2.0);
    assert 4 * a <= w < 4 * a + 4 by {
      assert a as real <= w as real / 4.0 < a as real + 1.0;
    }
    assert 4 * b <= 3 * w < 4 * b + 4 by {
      assert b as real <= 3.0 * w as real / 4.0 < b as real + 1.0;
    }
    assert 2 * c <= cfg.height < 2 * c + 2 by {
      assert c as real <= cfg.height as real / 2.0 < c as real + 1.0;
    }
    AllowedWIntegerForm(cfg, a);
    AllowedWIntegerForm(cfg, b);
  }

  /** The placement fails for a 5-pixel window: the second character starts
      on the boundary 3W/5 of its corridor. */
  lemma StartPositionRejectedAtWidthFive(cfg: Config)
    requires cfg.width == 5
    ensures !InAllowedRecW(cfg, Trunc(3.0 * cfg.width as real / 4.0))
  {
    assert Trunc(3.0 * 5.0 / 4.0) == 3;
  }
}
