/** The state-transition rules of game.py as functions of values: the vision
    field clamps, the forward move, the ball step, and the update pass that
    main.py runs over the object list. The classes in module Game are proved
    against these functions. */
module Rules {
  import opened Settings
  import opened Geometry

  datatype Color = Color(r: int, g: int, b: int)

  /** The three kinds of game object, with the data each kind keeps for its
      whole life: a character's colour, a ball's direction. */
  datatype Kind = World | Character(color: Color) | Ball(direction: Vec)

  /** What the update pass sees of an object. */
  datatype Snapshot = Snapshot(kind: Kind, pos: Point)

  // ---------------------------------------------------------------------
  // Vision field (Character.reduce_field, Character.enlarge_field)

  const MaxField: real := 40.0

  /** `reduce_field`: subtract, and clamp at 0 when the result would be negative. */
  function ReducedField(f: real, v: real): real {
    if f - v >= 0.0 then f - v else 0.0
  }

  /** `enlarge_field`: add, and clamp at 40 when the result would exceed it. */
  function EnlargedField(f: real, v: real): real {
    if f + v <= MaxField then f + v else MaxField
  }

  /** For a non-negative amount, reducing is `max(0, f - v)`: it never
      increases the field and never goes below 0. */
  lemma ReducedFieldIsMax(f: real, v: real)
    requires v >= 0.0
    ensures ReducedField(f, v) == (if f - v > 0.0 then f - v else 0.0)
    ensures f >= 0.0 ==> 0.0 <= ReducedField(f, v) <= f
  {
  }

  /** For a non-negative amount, enlarging is `min(40, f + v)`. */
  lemma EnlargedFieldIsMin(f: real, v: real)
    requires v >= 0.0
    ensures EnlargedField(f, v) == (if f + v < MaxField then f + v else MaxField)
    ensures f <= MaxField ==> f <= EnlargedField(f, v) <= MaxField
  {
  }

  /** A command that changes the vision field. */
  datatype FieldCommand = Reduce(amount: real) | Enlarge(amount: real)

  function ApplyField(f: real, c: FieldCommand): real {
    match c
    case Reduce(v) => ReducedField(f, v)
    case Enlarge(v) => EnlargedField(f, v)
  }

  function ApplyFields(f: real, cs: seq<FieldCommand>): real
    decreases |cs|
  {
    if cs == [] then f else ApplyFields(ApplyField(f, cs[0]), cs[1..])
  }

  /** Any sequence of reduce and enlarge commands with non-negative amounts
      keeps a field in [0, 40] inside [0, 40]. */
  lemma {:induction false} FieldStaysInRange(f: real, cs: seq<FieldCommand>)
    requires 0.0 <= f <= MaxField
    requires forall i :: 0 <= i < |cs| ==> cs[i].amount >= 0.0
    ensures 0.0 <= ApplyFields(f, cs) <= MaxField
    decreases |cs|
  {
    if cs != [] {
      var g := ApplyField(f, cs[0]);
      assert 0.0 <= g <= MaxField;
      assert forall i :: 0 <= i < |cs[1..]| ==> cs[1..][i].amount == cs[i + 1].amount;
      FieldStaysInRange(g, cs[1..]);
    }
  }

  /** With a negative amount the one-sided clamps let the field leave
      [0, 40]: reducing 30 by -20 gives 50. */
  lemma NegativeReduceLeavesRange()
    ensures ReducedField(30.0, -20.0) == 50.0
    ensures EnlargedField(10.0, -20.0) == -10.0
  {
  }

  // ---------------------------------------------------------------------
  // Character.forward

  /** The step `forward` takes: `v`, capped from above at the move step. */
  function StepLength(cfg: Config, v: real): (r: real)
    ensures r <= cfg.moveStep && r <= v
    ensures r == v || r == cfg.moveStep
  {
    if v > cfg.moveStep then cfg.moveStep else v
  }

  /** The candidate position: `int(pos + step * direction)` per coordinate. */
  function Candidate(p: Point, step: real, d: Vec): Point {
    Point(Trunc(p.x as real + step * d.dx), Trunc(p.y as real + step * d.dy))
  }

  /** The position after `forward(v)` from `p` facing `d`. */
  function Forwarded(cfg: Config, p: Point, d: Vec, v: real): Point {
    var c := Candidate(p, StepLength(cfg, v), d);
    if InAllowedRec(cfg, c) then c else p
  }

  /** A forward move is all or nothing: the character either stays where it
      was or stands exactly at the candidate position, and it reaches the
      candidate exactly when the candidate is in the allowed zone. */
  lemma ForwardAllOrNothing(cfg: Config, p: Point, d: Vec, v: real)
    ensures var c := Candidate(p, StepLength(cfg, v), d);
            var r := Forwarded(cfg, p, d, v);
            (r == c <==> InAllowedRec(cfg, c) || c == p) &&
            (r != c ==> r == p)
  {
  }

  /** A character in the allowed zone stays in it. */
  lemma ForwardKeepsAllowed(cfg: Config, p: Point, d: Vec, v: real)
    requires InAllowedRec(cfg, p)
    ensures InAllowedRec(cfg, Forwarded(cfg, p, d, v))
  {
  }

  // ---------------------------------------------------------------------
  // Ball.on_update

  /** The ball's next position: `int(direction * V_BALL + pos)` per coordinate. */
  function BallNext(cfg: Config, p: Point, d: Vec): Point {
    Point(Trunc(d.dx * cfg.ballSpeed + p.x as real), Trunc(d.dy * cfg.ballSpeed + p.y as real))
  }

  /** A ball moving right along a row advances by the whole part of its
      speed each frame and is removed on the first frame its next x would
      reach the right edge, not before. */
  lemma BallAlongRow(cfg: Config, p: Point)
    requires cfg.Valid() && InWindow(cfg, p)
    ensures BallNext(cfg, p, Vec(1.0, 0.0)) == Point(p.x + Trunc(cfg.ballSpeed), p.y)
    ensures InWindow(cfg, BallNext(cfg, p, Vec(1.0, 0.0))) <==> p.x + Trunc(cfg.ballSpeed) < cfg.width
  {
    var t := Trunc(cfg.ballSpeed);
    assert t as real <= cfg.ballSpeed < t as real + 1.0;
    var n := cfg.ballSpeed + p.x as real;
    assert (p.x + t) as real <= n < (p.x + t) as real + 1.0;
    assert Trunc(n) == p.x + t;
    assert Trunc(0.0 * cfg.ballSpeed + p.y as real) == p.y;
  }

  // ---------------------------------------------------------------------
  // App.on_update: `for o in self.objects: o.on_update()`

  /** Whether an object, visited by the pass, removes itself from the list. */
  predicate Exits(cfg: Config, o: Snapshot) {
    o.kind.Ball? && !InWindow(cfg, BallNext(cfg, o.pos, o.kind.direction))
  }

  /** An object after its own `on_update`, when it does not exit. Worlds and
      characters do nothing; a ball moves. */
  function Stepped(cfg: Config, o: Snapshot): Snapshot {
    if o.kind.Ball? then Snapshot(o.kind, BallNext(cfg, o.pos, o.kind.direction)) else o
  }

  /** The list after one pass of Python's list iterator over `objs`, the
      objects from the iterator's current index on. The iterator keeps an
      index; when the object at that index pops itself, the next object
      moves into its slot, the index still advances, and that next object is
      not visited. */
  function Pass(cfg: Config, objs: seq<Snapshot>): seq<Snapshot>
    decreases |objs|
  {
    if objs == [] then []
    else if Exits(cfg, objs[0]) then
      (if |objs| == 1 then [] else [objs[1]] + Pass(cfg, objs[2..]))
    else [Stepped(cfg, objs[0])] + Pass(cfg, objs[1..])
  }

  /** `Pass` is what an index-advancing loop computes. With the objects
      before `idx` done and the pass still to run from `idx` on, visiting the
      object at `idx` and advancing the index keeps the same outcome, whether
      that object steps in place or removes itself from the list. */
  lemma PassAdvance(cfg: Config, s: seq<Snapshot>, idx: nat, target: seq<Snapshot>)
    requires idx < |s| && s[..idx] + Pass(cfg, s[idx..]) == target
    ensures Exits(cfg, s[idx]) ==>
              var t := s[..idx] + s[idx + 1..];
              (idx + 1 <= |t| ==> t[..idx + 1] + Pass(cfg, t[idx + 1..]) == target) &&
              (idx + 1 > |t| ==> t == target)
    ensures !Exits(cfg, s[idx]) ==>
              var t := s[idx := Stepped(cfg, s[idx])];
              t[..idx + 1] + Pass(cfg, t[idx + 1..]) == target
  {
    var rest := s[idx..];
    assert rest[0] == s[idx];
    if Exits(cfg, s[idx]) {
      var t := s[..idx] + s[idx + 1..];
      if idx + 1 <= |t| {
        assert rest[1..][1..] == s[idx + 2..];
        assert t[..idx + 1] == s[..idx] + [s[idx + 1]];
        assert t[idx + 1..] == s[idx + 2..];
      } else {
        assert t == s[..idx];
      }
    } else {
      var t := s[idx := Stepped(cfg, s[idx])];
      assert t[..idx + 1] == s[..idx] + [Stepped(cfg, s[idx])];
      assert t[idx + 1..] == rest[1..];
    }
  }

  /** Which of `objs` the same pass visits. */
  function Visits(cfg: Config, objs: seq<Snapshot>): (m: seq<bool>)
    ensures |m| == |objs|
    decreases |objs|
  {
    if objs == [] then []
    else if Exits(cfg, objs[0]) then
      (if |objs| == 1 then [true] else [true, false] + Visits(cfg, objs[2..]))
    else [true] + Visits(cfg, objs[1..])
  }

  /** The outcome of a pass element by element, given which objects were
      visited: a visited object that exits is dropped, a visited object that
      stays is stepped, an object that was not visited is kept as it was. */
  function Outcome(cfg: Config, objs: seq<Snapshot>, visited: seq<bool>): seq<Snapshot>
    requires |visited| == |objs|
    decreases |objs|
  {
    if objs == [] then []
    else
      var head := if !visited[0] then [objs[0]]
                  else if Exits(cfg, objs[0]) then []
                  else [Stepped(cfg, objs[0])];
      head + Outcome(cfg, objs[1..], visited[1..])
  }

  /** The pass is exactly this element-wise outcome over the objects it visits. */
  lemma {:induction false} PassIsOutcome(cfg: Config, objs: seq<Snapshot>)
    ensures Pass(cfg, objs) == Outcome(cfg, objs, Visits(cfg, objs))
    decreases |objs|
  {
    if objs == [] {
    } else if Exits(cfg, objs[0]) {
      if |objs| > 1 {
        var m := Visits(cfg, objs);
        PassIsOutcome(cfg, objs[2..]);
        assert objs[1..][1..] == objs[2..];
        assert m[1..][1..] == Visits(cfg, objs[2..]);
      }
    } else {
      PassIsOutcome(cfg, objs[1..]);
    }
  }

  /** The first object is always visited; an object is skipped exactly when
      the object just before it was visited and removed itself. */
  lemma {:induction false} VisitsSkipRule(cfg: Config, objs: seq<Snapshot>, k: nat)
    requires k < |objs|
    ensures var m := Visits(cfg, objs);
            (k == 0 ==> m[0]) &&
            (k > 0 ==> (!m[k] <==> m[k - 1] && Exits(cfg, objs[k - 1])))
    decreases |objs|
  {
    var m := Visits(cfg, objs);
    if Exits(cfg, objs[0]) {
      if |objs| > 1 && k >= 2 {
        var rest := objs[2..];
        VisitsSkipRule(cfg, rest, k - 2);
        assert m[k] == Visits(cfg, rest)[k - 2];
        if k >= 3 {
          assert m[k - 1] == Visits(cfg, rest)[k - 3];
          assert objs[k - 1] == rest[k - 3];
        } else {
          assert m[k - 1] == false;
          assert Visits(cfg, rest)[0];
        }
      }
    } else if k >= 1 {
      var rest := objs[1..];
      VisitsSkipRule(cfg, rest, k - 1);
      assert m[k] == Visits(cfg, rest)[k - 1];
      if k >= 2 {
        assert m[k - 1] == Visits(cfg, rest)[k - 2];
        assert objs[k - 1] == rest[k - 2];
      }
    }
  }

  /** The world and the characters of a list, in order. */
  function NonBalls(objs: seq<Snapshot>): (r: seq<Snapshot>)
    ensures forall o :: o in r ==> !o.kind.Ball? && o in objs
    decreases |objs|
  {
    if objs == [] then []
    else (if objs[0].kind.Ball? then [] else [objs[0]]) + NonBalls(objs[1..])
  }

  /** Objects that are not balls are never removed or changed by a pass:
      their sub-list is the same before and after. */
  lemma {:induction false} PassKeepsNonBalls(cfg: Config, objs: seq<Snapshot>)
    ensures NonBalls(Pass(cfg, objs)) == NonBalls(objs)
    decreases |objs|
  {
    if objs == [] {
    } else if Exits(cfg, objs[0]) {
      if |objs| == 1 {
        assert NonBalls(objs) == [] + NonBalls(objs[1..]);
      } else {
        PassKeepsNonBalls(cfg, objs[2..]);
        NonBallsConcat([objs[1]], Pass(cfg, objs[2..]));
        assert objs[1..][1..] == objs[2..];
        assert NonBalls(objs) == NonBalls(objs[1..]);
        assert NonBalls(objs[1..]) == NonBalls([objs[1]]) + NonBalls(objs[2..]);
      }
    } else {
      PassKeepsNonBalls(cfg, objs[1..]);
      NonBallsConcat([Stepped(cfg, objs[0])], Pass(cfg, objs[1..]));
    }
  }

  lemma {:induction false} NonBallsConcat(a: seq<Snapshot>, b: seq<Snapshot>)
    ensures NonBalls(a + b) == NonBalls(a) + NonBalls(b)
    decreases |a|
  {
    if a == [] {
      assert a + b == b;
    } else {
      NonBallsConcat(a[1..], b);
      assert (a + b)[1..] == a[1..] + b;
    }
  }

  /** The pass never lengthens the list, and a pass over balls leaves only balls. */
  lemma {:induction false} PassOfBalls(cfg: Config, objs: seq<Snapshot>)
    ensures |Pass(cfg, objs)| <= |objs|
    ensures (forall k :: 0 <= k < |objs| ==> objs[k].kind.Ball?) ==>
            forall k :: 0 <= k < |Pass(cfg, objs)| ==> Pass(cfg, objs)[k].kind.Ball?
    decreases |objs|
  {
    if objs == [] {
    } else if Exits(cfg, objs[0]) {
      if |objs| > 1 {
        PassOfBalls(cfg, objs[2..]);
      }
    } else {
      PassOfBalls(cfg, objs[1..]);
    }
  }

  /** The layout the application keeps: the world, then two characters,
      then only balls. */
  predicate StandardLayout(objs: seq<Snapshot>) {
    |objs| >= 3 && objs[0].kind.World? && objs[1].kind.Character? && objs[2].kind.Character? &&
    forall k :: 3 <= k < |objs| ==> objs[k].kind.Ball?
  }

  /** A pass keeps that layout and leaves the world and both characters untouched. */
  lemma PassKeepsLayout(cfg: Config, objs: seq<Snapshot>)
    requires StandardLayout(objs)
    ensures StandardLayout(Pass(cfg, objs))
    ensures Pass(cfg, objs)[..3] == objs[..3]
  {
    assert objs[1..][1..] == objs[2..];
    assert objs[2..][1..] == objs[3..];
    assert Pass(cfg, objs[2..]) == [objs[2]] + Pass(cfg, objs[3..]);
    assert Pass(cfg, objs[1..]) == [objs[1]] + Pass(cfg, objs[2..]);
    assert Pass(cfg, objs) == [objs[0]] + Pass(cfg, objs[1..]);
    PassOfBalls(cfg, objs[3..]);
    var r := Pass(cfg, objs);
    forall k | 3 <= k < |r| ensures r[k].kind.Ball? {
      assert r[k] == Pass(cfg, objs[3..])[k - 3];
    }
  }

  /** Two balls that both leave the window on this frame: only the first is
      removed, the second is skipped and stays, unmoved, for the next frame. */
  lemma AdjacentExitsSkipSecond(cfg: Config, a: Snapshot, b: Snapshot)
    requires Exits(cfg, a) && Exits(cfg, b)
    ensures Pass(cfg, [a, b]) == [b]
    ensures Visits(cfg, [a, b]) == [true, false]
  {
  }
}
