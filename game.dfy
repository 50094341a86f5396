/** The game objects of game.py and the application of main.py that owns
    them. They share one module because they call each other: a character
    registers the balls it fires with the application, and a ball asks the
    application to remove it. */
module Game {
  import opened Settings
  import opened Geometry
  import opened Rules

  /** One game object. The world, the characters and the balls are told
      apart by `kind`, which also carries what never changes after creation
      (a character's colour, a ball's direction). `angle`, `fieldAngle` and
      `lastTick` are the state of a character and are unused by the other
      kinds. */
  class GameObject {
    const kind: Kind
    var pos: Point
    /** The object's index in the application's list; see `App.Valid`. */
    var id: int
    /** Facing, in degrees. */
    var angle: real
    /** The vision field, in degrees. */
    var fieldAngle: real
    /** The reading of the character's cooldown clock at its last tick. */
    var lastTick: real

    /** `World.__init__`: the backdrop, at the origin, with the default id 0. */
    constructor World()
      ensures kind == Kind.World && pos == Point(0, 0) && id == 0
    {
      kind := Kind.World;
      pos := Point(0, 0);
      id := 0;
    }

    /** `Character.__init__`: facing angle 0 with a vision field of 30; its
        cooldown clock is created with it, at time 0. */
    constructor Character(color: Color, p: Point, i: int)
      ensures kind == Kind.Character(color) && pos == p && id == i
      ensures angle == 0.0 && fieldAngle == 30.0 && lastTick == 0.0
    {
      kind := Kind.Character(color);
      pos, id := p, i;
      angle, fieldAngle, lastTick := 0.0, 30.0, 0.0;
    }

    /** `Ball.__init__`: a ball with a fixed direction and the default id 0. */
    constructor Ball(direction: Vec, p: Point)
      ensures kind == Kind.Ball(direction) && pos == p && id == 0
    {
      kind := Kind.Ball(direction);
      pos, id := p, 0;
    }

    /** `reduce_field(v)`. */
    method ReduceField(v: real)
      requires kind.Character?
      modifies this`fieldAngle
      ensures fieldAngle == ReducedField(old(fieldAngle), v)
    {
      var n := fieldAngle - v;
      if n >= 0.0 {
        fieldAngle := n;
      } else {
        fieldAngle := 0.0;
      }
    }

    /** `enlarge_field(v)`. */
    method EnlargeField(v: real)
      requires kind.Character?
      modifies this`fieldAngle
      ensures fieldAngle == EnlargedField(old(fieldAngle), v)
    {
      var n := fieldAngle + v;
      if n <= MaxField {
        fieldAngle := n;
      } else {
        fieldAngle := MaxField;
      }
    }

    /** `turn_left(v)`: only the angle changes. */
    method TurnLeft(v: real)
      requires kind.Character?
      modifies this`angle
      ensures angle == old(angle) - v
    {
      angle := angle - v;
    }

    /** `turn_right(v)`: only the angle changes. */
    method TurnRight(v: real)
      requires kind.Character?
      modifies this`angle
      ensures angle == old(angle) + v
    {
      angle := angle + v;
    }

    /** `forward(v)`. `heading` gives (cos, sin) of an angle in degrees. */
    method Forward(cfg: Config, v: real, heading: real -> Vec)
      requires kind.Character?
      modifies this`pos
      ensures pos == Forwarded(cfg, old(pos), heading(angle), v)
    {
      var step := v;
      if step > cfg.moveStep {
        step := cfg.moveStep;
      }
      var d := heading(angle);
      var next := Point(Trunc(pos.x as real + step * d.dx), Trunc(pos.y as real + step * d.dy));
      assert step == StepLength(cfg, v) && next == Candidate(pos, step, d);
      if InAllowedRec(cfg, next) {
        pos := next;
      }
    }

    /** `shoot(v)`. For `v <= 1` nothing happens, not even a tick of the
        cooldown clock. Otherwise the clock ticks at time `now`, and when the
        time since its previous tick is at least the cooldown period, one
        ball is registered with `app`, at the character's position and facing
        the character's way. */
    method Shoot(cfg: Config, app: App, v: real, now: real, heading: real -> Vec)
      requires kind.Character?
      modifies this`lastTick, app`objects
      ensures v <= 1.0 ==> lastTick == old(lastTick) && app.objects == old(app.objects)
      ensures v > 1.0 ==> lastTick == now
      ensures v > 1.0 && now - old(lastTick) < cfg.shootPeriod ==> app.objects == old(app.objects)
      ensures v > 1.0 && now - old(lastTick) >= cfg.shootPeriod ==>
                var n := |old(app.objects)|;
                |app.objects| == n + 1 && app.objects[..n] == old(app.objects) &&
                fresh(app.objects[n]) && app.objects[n].kind == Kind.Ball(heading(angle)) &&
                app.objects[n].pos == pos && app.objects[n].id == n
      ensures old(app.Valid()) ==> app.Valid()
    {
      if v <= 1.0 {
        return;
      }
      var elapsed := now - lastTick;
      lastTick := now;
      if elapsed >= cfg.shootPeriod {
        var b := new GameObject.Ball(heading(angle), pos);
        app.AddObject(b);
      }
    }

    /** `on_update`. The world and the characters do nothing. A ball moves to
        its next position when that is inside the window, and otherwise stays
        where it is and asks the application to remove the object at its id;
        it never does both. */
    method OnUpdate(cfg: Config, app: App)
      requires Exits(cfg, Snapshot(kind, pos)) ==> app.Valid() && 0 <= id < |app.objects|
      modifies this`pos, app`objects, app.objects`id
      ensures !Exits(cfg, old(Snapshot(kind, pos))) ==>
                Snapshot(kind, pos) == Stepped(cfg, old(Snapshot(kind, pos))) &&
                app.objects == old(app.objects) &&
                forall o :: o in old(app.objects) ==> o.id == old(o.id)
      ensures Exits(cfg, old(Snapshot(kind, pos))) ==>
                pos == old(pos) && app.Valid() &&
                app.objects == old(app.objects[..id] + app.objects[id + 1..])
    {
      if kind.Ball? {
        var next := BallNext(cfg, pos, kind.direction);
        if InWindow(cfg, next) {
          pos := next;
        } else {
          app.RemoveObject(id);
        }
      }
    }
  }

  /** What the update pass sees of a list of objects. */
  ghost function SnapshotsOf(objs: seq<GameObject>): (r: seq<Snapshot>)
    reads objs`pos
    ensures |r| == |objs|
    decreases |objs|
  {
    if objs == [] then [] else [Snapshot(objs[0].kind, objs[0].pos)] + SnapshotsOf(objs[1..])
  }

  /** A pygame event, as far as `on_event` looks at it. */
  datatype Event = Quit | KeyDown | OtherEvent

  /** The state of the four keys that `manage_keys` polls. */
  datatype Keys = Keys(up: bool, left: bool, right: bool, space: bool)

  class App {
    const settings: Config
    var objects: seq<GameObject>
    var running: bool

    /** Every object's id is its index in the list. */
    ghost predicate Valid()
      reads this, objects`id
    {
      forall i :: 0 <= i < |objects| ==> objects[i].id == i
    }

    /** The world first, then the two characters, then only balls. */
    ghost predicate Layout()
      reads this
    {
      |objects| >= 3 && objects[0].kind.World? &&
      objects[1].kind.Character? && objects[2].kind.Character? &&
      forall k :: 3 <= k < |objects| ==> objects[k].kind.Ball?
    }

    /** `App.__init__`, for a window of the configured size: the world with
        id 0, then the red character at (int(w/4), int(h/2)) with id 1 and the
        green one at (int(3w/4), int(h/2)) with id 2; not running yet. */
    constructor (cfg: Config)
      ensures settings == cfg && !running
      ensures |objects| == 3 && Valid() && Layout()
      ensures objects[1].kind == Kind.Character(Color(255, 0, 0))
      ensures objects[2].kind == Kind.Character(Color(20, 255, 70))
      ensures objects[1].pos == Point(Trunc(cfg.width as real / 4.0), Trunc(cfg.height as real / 2.0))
      ensures objects[2].pos == Point(Trunc(3.0 * cfg.width as real / 4.0), Trunc(cfg.height as real / 2.0))
      ensures forall k :: 1 <= k < 3 ==> objects[k].angle == 0.0 && objects[k].fieldAngle == 30.0
      ensures forall k :: 0 <= k < 3 ==> fresh(objects[k])
    {
      settings := cfg;
      running := false;
      var w, h := cfg.width as real, cfg.height as real;
      var world := new GameObject.World();
      var red := new GameObject.Character(Color(255, 0, 0), Point(Trunc(w / 4.0), Trunc(h / 2.0)), 1);
      var green := new GameObject.Character(Color(20, 255, 70), Point(Trunc(3.0 * w / 4.0), Trunc(h / 2.0)), 2);
      objects := [world, red, green];
    }

    /** `add_object(o)`: `o` gets the old length as its id and is appended;
        no other object's id changes. */
    method AddObject(o: GameObject)
      modifies this`objects, o`id
      ensures objects == old(objects) + [o]
      ensures o.id == old(|objects|)
      ensures forall k :: 0 <= k < old(|objects|) && objects[k] != o ==> objects[k].id == old(objects[k].id)
      ensures old(Valid()) && o !in old(objects) ==> Valid()
    {
      o.id := |objects|;
      objects := objects + [o];
    }

    /** `remove_object(i)`: pop the object at index `i`, then decrement the
        id of every object from index `i` on. The objects before `i` keep
        their slots and ids, those after it move down one slot and lose
        exactly one from their id, and the popped object keeps its id. */
    method RemoveObject(i: int)
      requires Valid() && 0 <= i < |objects|
      modifies this`objects, objects`id
      ensures Valid()
      ensures objects == old(objects[..i] + objects[i + 1..])
      ensures forall k :: 0 <= k < i ==> objects[k].id == old(objects[k].id)
      ensures forall k :: i <= k < |objects| ==> objects[k].id == old(objects[k + 1].id) - 1
      ensures old(objects[i]).id == old(objects[i].id)
    {
      ghost var was := objects;
      objects := objects[..i] + objects[i + 1..];
      var tail := objects[i..];
      var j := 0;
      while j < |tail|
        invariant 0 <= j <= |tail|
        invariant objects == was[..i] + was[i + 1..] && tail == objects[i..]
        invariant forall k :: 0 <= k < |objects| ==> objects[k].id == if k < i + j then k else k + 1
        invariant was[i].id == i
      {
        tail[j].id := tail[j].id - 1;
        j := j + 1;
      }
    }

    /** `on_event(e)`: a QUIT event stops the application; nothing else changes. */
    method OnEvent(e: Event)
      modifies this`running
      ensures running == (if e.Quit? then false else old(running))
    {
      if e.Quit? {
        running := false;
      } else if e.KeyDown? {
      }
    }

    /** `manage_keys()`: each pressed key sends its command, with its default
        argument, to the object at index 1 and to no other object: up moves
        it forward by the move step, left and right turn it by the turn step,
        space calls `shoot()` whose default argument 1 fires nothing. */
    method ManageKeys(keys: Keys, now: real, heading: real -> Vec)
      requires |objects| > 1 && objects[1].kind.Character?
      modifies this`objects, objects[1]
      ensures objects == old(objects)
      ensures objects[1].fieldAngle == old(objects[1].fieldAngle) && objects[1].id == old(objects[1].id)
      ensures objects[1].pos ==
                if keys.up then Forwarded(settings, old(objects[1].pos), heading(old(objects[1].angle)), settings.moveStep)
                else old(objects[1].pos)
      ensures objects[1].angle ==
                old(objects[1].angle) - (if keys.left then settings.turnStep else 0.0)
                                      + (if keys.right then settings.turnStep else 0.0)
      ensures objects[1].lastTick == old(objects[1].lastTick)
      ensures old(Valid()) ==> Valid()
    {
      var c := objects[1];
      if keys.up {
        c.Forward(settings, settings.moveStep, heading);
      }
      if keys.left {
        c.TurnLeft(settings.turnStep);
      }
      if keys.right {
        c.TurnRight(settings.turnStep);
      }
      if keys.space {
        c.Shoot(settings, this, 1.0, now, heading);
      }
    }

    /** `on_update()`: Python's `for o in self.objects: o.on_update()`, an
        iterator that advances an index over a list that balls pop themselves
        from. The list afterwards is what `Rules.Pass` says; in particular an
        object that slides into the slot of a ball that just removed itself is
        not visited on this frame. Ids still match indices, nothing is added,
        and the world and both characters stay in front. */
    method OnUpdate()
      requires Valid()
      modifies this`objects, objects`id, objects`pos
      ensures Valid()
      ensures SnapshotsOf(objects) == Pass(settings, old(SnapshotsOf(objects)))
      ensures forall o :: o in objects ==> o in old(objects)
      ensures old(Layout()) ==> Layout()
    {
      ghost var start := SnapshotsOf(objects);
      SnapshotKinds(objects);
      ghost var target := Pass(settings, start);
      ghost var pool := set o | o in objects;
      var idx := 0;
      while idx < |objects|
        invariant 0 <= idx <= |objects| + 1
        invariant Valid()
        invariant forall o :: o in objects ==> o in old(objects) && o in pool
        invariant idx <= |objects| ==>
                    SnapshotsOf(objects)[..idx] + Pass(settings, SnapshotsOf(objects)[idx..]) == target
        invariant idx == |objects| + 1 ==> SnapshotsOf(objects) == target
        decreases |objects| + 1 - idx
      {
        PassAdvance(settings, SnapshotsOf(objects), idx, target);
        Visit(idx, pool);
        idx := idx + 1;
      }
      if idx <= |objects| {
        assert SnapshotsOf(objects)[..idx] == SnapshotsOf(objects);
        assert SnapshotsOf(objects)[idx..] == [];
      }
      if old(Layout()) {
        assert StandardLayout(start);
        PassKeepsLayout(settings, start);
        SnapshotKinds(objects);
      }
    }

    /** One step of the update pass: `objects[idx].on_update()`. `pool` holds
        every object the pass may touch. */
    method Visit(idx: nat, ghost pool: set<GameObject>)
      requires Valid() && idx < |objects| && forall o :: o in objects ==> o in pool
      modifies this`objects, pool`id, pool`pos
      ensures Valid()
      ensures forall o :: o in objects ==> o in old(objects)
      ensures var s := old(SnapshotsOf(objects));
              SnapshotsOf(objects) ==
                if Exits(settings, s[idx]) then s[..idx] + s[idx + 1..]
                else s[idx := Stepped(settings, s[idx])]
    {
      var o := objects[idx];
      ghost var objs := objects;
      SnapshotsSplit(objs, idx);
      ghost var front, back := SnapshotsOf(objs[..idx]), SnapshotsOf(objs[idx + 1..]);
      ghost var s := SnapshotsOf(objs);
      assert s == front + [Snapshot(o.kind, o.pos)] + back;
      assert s[idx] == Snapshot(o.kind, o.pos);
      assert forall k :: 0 <= k < idx ==> objs[k].id != o.id;
      assert forall k :: idx < k < |objs| ==> objs[k].id != o.id;
      assert o !in objs[..idx] && o !in objs[idx + 1..];
      o.OnUpdate(settings, this);
      assert SnapshotsOf(objs[..idx]) == front;
      assert SnapshotsOf(objs[idx + 1..]) == back;
      if Exits(settings, s[idx]) {
        assert objects == objs[..idx] + objs[idx + 1..];
        SnapshotsConcat(objs[..idx], objs[idx + 1..]);
        SpliceOut(front, s[idx], back);
      } else {
        assert objects == objs;
        SnapshotsSplit(objs, idx);
        SpliceIn(front, s[idx], back, Stepped(settings, s[idx]));
      }
    }
  }

  lemma {:induction false} SnapshotsConcat(a: seq<GameObject>, b: seq<GameObject>)
    ensures SnapshotsOf(a + b) == SnapshotsOf(a) + SnapshotsOf(b)
    decreases |a|
  {
    if a == [] {
      assert a + b == b;
    } else {
      assert (a + b)[1..] == a[1..] + b;
      SnapshotsConcat(a[1..], b);
    }
  }

  lemma SnapshotsSplit(objs: seq<GameObject>, k: int)
    requires 0 <= k < |objs|
    ensures SnapshotsOf(objs) ==
              SnapshotsOf(objs[..k]) + [Snapshot(objs[k].kind, objs[k].pos)] + SnapshotsOf(objs[k + 1..])
  {
    var front, rest := objs[..k], objs[k..];
    assert objs == front + rest;
    SnapshotsConcat(front, rest);
    assert rest == [objs[k]] + objs[k + 1..];
    assert SnapshotsOf(rest) == [Snapshot(objs[k].kind, objs[k].pos)] + SnapshotsOf(objs[k + 1..]);
  }

  lemma SpliceOut<T>(front: seq<T>, x: T, back: seq<T>)
    ensures var s := front + [x] + back; s[..|front|] + s[|front| + 1..] == front + back
  {
    var s := front + [x] + back;
    assert s[..|front|] == front;
    assert s[|front| + 1..] == back;
  }

  lemma SpliceIn<T>(front: seq<T>, x: T, back: seq<T>, y: T)
    ensures (front + [x] + back)[|front| := y] == front + [y] + back
  {
  }

  /** The snapshot list has the objects' kinds, index by index. */
  lemma {:induction false} SnapshotKinds(objs: seq<GameObject>)
    ensures forall k :: 0 <= k < |objs| ==> SnapshotsOf(objs)[k].kind == objs[k].kind
    decreases |objs|
  {
    if objs != [] {
      SnapshotKinds(objs[1..]);
    }
  }

  /** Removing the object just added restores the list: `remove_object`
      undoes `add_object`, and every other object keeps its id. */
  method AddThenRemove(app: App, o: GameObject)
    requires app.Valid() && o !in app.objects
    modifies app`objects, app.objects`id, o`id
    ensures app.objects == old(app.objects) && app.Valid()
    ensures forall k :: 0 <= k < |app.objects| ==> app.objects[k].id == old(app.objects[k].id)
  {
    app.AddObject(o);
    app.RemoveObject(|app.objects| - 1);
  }

  /** Turning left and then right by the same amount restores the angle and
      touches nothing else. */
  method TurnLeftThenRight(c: GameObject, v: real)
    requires c.kind.Character?
    modifies c`angle
    ensures c.angle == old(c.angle)
  {
    c.TurnLeft(v);
    c.TurnRight(v);
  }

  /** Two shots with a strength above 1, the second less than a cooldown
      period after the first, register at most one ball. */
  method ShootTwice(cfg: Config, app: App, c: GameObject, t1: real, t2: real, heading: real -> Vec)
    requires c.kind.Character? && t2 - t1 < cfg.shootPeriod
    modifies c`lastTick, app`objects
    ensures |old(app.objects)| <= |app.objects| <= |old(app.objects)| + 1
    ensures app.objects[..|old(app.objects)|] == old(app.objects)
  {
    c.Shoot(cfg, app, 2.0, t1, heading);
    c.Shoot(cfg, app, 2.0, t2, heading);
  }
}
