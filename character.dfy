/**
 * A fighter: a square that moves with its inputs and its velocity, is
 * confined to the arena, bounces off the obstacles it overlaps, and
 * attacks or blocks under a shared cooldown.  The delayed callbacks that
 * end an attack, a block or the cooldown are pending timers, and their
 * expiry is an explicit event.
 */
module Actors {
  import opened Geometry
  import opened Shapes
  import opened Sat
  import opened Collision
  import opened Util
  import opened Obstacles

  const Size: real := 100.0
  /** The weapon's length beyond the square (the source's `range`). */
  const Reach: real := 150.0
  const AttackDuration: nat := 200
  const BlockDuration: nat := 300
  const CooldownDuration: nat := 800
  const MaxVelocity: real := 20.0
  /** The margin of the starting position from the arena's corner. */
  const Margin: real := 50.0

  /** The inputs and states a character acts on. */
  datatype Action = Action(movingX: real, movingY: real, attacking: bool, blocking: bool, cooldown: bool)

  const Resting: Action := Action(0.0, 0.0, false, false, false)

  /** What a pending timer does when it fires. */
  datatype Expiry = EndAttack | EndBlock | EndCooldown

  /** A scheduled callback and the delay, in milliseconds, it was scheduled with. */
  datatype Timer = Timer(expiry: Expiry, delay: nat)

  /** What an attack came to: none made, blocked, missed, or a hit that wins the round. */
  datatype Outcome = Idle | Blocked | Missed | Won

  /** One coordinate after a move: below zero goes to zero, past the far edge goes to the edge. */
  function Confine(v: real, far: real): (r: real)
    ensures 0.0 <= far ==> 0.0 <= r <= far
    ensures 0.0 <= v <= far ==> r == v
    ensures v < 0.0 ==> r == 0.0
  {
    if v < 0.0 then 0.0 else if v > far then far else v
  }

  /** In an arena at least as wide as the character, confining is clamping to [0, far]. */
  lemma ConfineIsClamp(v: real, far: real)
    requires 0.0 <= far
    ensures Confine(v, far) == Clamp(v, 0.0, far)
  {
  }

  /** The position after move: integrated from the input and the velocity, then confined. */
  function Stepped(p: Vec, v: Vec, a: Action, width: real, height: real): (r: Vec)
    ensures width >= Size ==> 0.0 <= r.x <= width - Size
    ensures height >= Size ==> 0.0 <= r.y <= height - Size
  {
    Vec(Confine(p.x + a.movingX + v.x, width - Size),
        Confine(p.y + a.movingY + v.y, height - Size))
  }

  /** A velocity component after move: pushed by the input, or slowed when there is none; then clamped. */
  function Accelerate(v: real, moving: real): (r: real)
    ensures -MaxVelocity <= r <= MaxVelocity
    ensures moving == 0.0 && -MaxVelocity <= v <= MaxVelocity ==> Abs(r) <= Abs(v)
    ensures moving != 0.0 && -MaxVelocity <= v + moving <= MaxVelocity ==> r == v + moving
  {
    Clamp(if moving != 0.0 then v + moving else v * 0.8, MaxVelocity * -1.0, MaxVelocity)
  }

  function Accelerated(v: Vec, a: Action): Vec
  {
    Vec(Accelerate(v.x, a.movingX), Accelerate(v.y, a.movingY))
  }

  /** Bouncing off one obstacle: the overlap vector taken off the velocity, then friction. */
  function Rebound(v: Vec, overlapV: Vec): (r: Vec)
    ensures r == Scale(Sub(v, overlapV), 0.8)
  {
    Vec((v.x + overlapV.x * -1.0) * 0.8, (v.y + overlapV.y * -1.0) * 0.8)
  }

  /**
   * One obstacle of collide: the velocity after testing the character's
   * payload `q` against the obstacle's `r`, and the overlap direction the
   * collider's record is left with.
   */
  function BounceOnce(q: Quad, r: Quad, v: Vec, n: Vec, m: MathLib): (Vec, Vec)
  {
    var scan := QuadsScan(q, r, Seed(n), m);
    (if QuadsHit(q, r, m) then Rebound(v, Scale(scan.overlapN, scan.overlap)) else v, scan.overlapN)
  }

  /**
   * One bounce as the collider's record leaves it: the direction the record
   * ends with, and on a collision the velocity less the record's overlap vector.
   */
  lemma BounceStep(q: Quad, r: Quad, v: Vec, d: Details, after: Details, hit: bool, m: MathLib)
    requires hit == QuadsHit(q, r, m)
    requires var scan := QuadsScan(q, r, d, m);
      after == if hit then Concluded(scan, after.a, after.b) else scan
    ensures BounceOnce(q, r, v, d.overlapN, m) == (if hit then Rebound(v, after.overlapV) else v, after.overlapN)
  {
    PolygonsScanFromDirection(QuadPair(q, r), d, QuadAxes(q, r, m));
  }

  /** collide over a list of obstacle payloads, in order, each bounce starting from the last. */
  function Bounce(q: Quad, rs: seq<Quad>, v: Vec, n: Vec, m: MathLib): (Vec, Vec)
  {
    if rs == [] then (v, n)
    else
      var before := Bounce(q, rs[..|rs| - 1], v, n, m);
      BounceOnce(q, rs[|rs| - 1], before.0, before.1, m)
  }

  /** One more obstacle at the end of the list is one more bounce. */
  lemma BounceSnoc(q: Quad, rs: seq<Quad>, r: Quad, v: Vec, n: Vec, m: MathLib)
    ensures var before := Bounce(q, rs, v, n, m);
      Bounce(q, rs + [r], v, n, m) == BounceOnce(q, r, before.0, before.1, m)
  {
    assert (rs + [r])[..|rs|] == rs;
  }

  /** Bouncing off two lists in turn is bouncing off their concatenation: the updates accumulate. */
  lemma {:induction false} BounceAppend(q: Quad, rs: seq<Quad>, ts: seq<Quad>, v: Vec, n: Vec, m: MathLib)
    ensures var mid := Bounce(q, rs, v, n, m);
      Bounce(q, rs + ts, v, n, m) == Bounce(q, ts, mid.0, mid.1, m)
  {
    if ts == [] {
      assert rs + ts == rs;
    } else {
      var front, last := ts[..|ts| - 1], ts[|ts| - 1];
      assert ts == front + [last];
      assert rs + ts == (rs + front) + [last];
      var mid := Bounce(q, rs, v, n, m);
      BounceAppend(q, rs, front, v, n, m);
      BounceSnoc(q, rs + front, last, v, n, m);
      BounceSnoc(q, front, last, mid.0, mid.1, m);
    }
  }

  /** Obstacles the character does not touch leave its velocity as it was. */
  lemma {:induction false} BounceUntouched(q: Quad, rs: seq<Quad>, v: Vec, n: Vec, m: MathLib)
    requires forall k :: 0 <= k < |rs| ==> !QuadsHit(q, rs[k], m)
    ensures Bounce(q, rs, v, n, m).0 == v
  {
    if rs != [] {
      BounceUntouched(q, rs[..|rs| - 1], v, n, m);
    }
  }

  /** Step k of a run of collide: state k + 1 is state k bounced off obstacle k. */
  ghost predicate Link(q: Quad, rs: seq<Quad>, trail: seq<(Vec, Vec)>, m: MathLib, k: int)
  {
    0 <= k < |rs| && k + 1 < |trail| && trail[k + 1] == BounceOnce(q, rs[k], trail[k].0, trail[k].1, m)
  }

  /** The states a run of collide passes through, one more than the obstacles it has tested. */
  ghost predicate Chained(q: Quad, rs: seq<Quad>, trail: seq<(Vec, Vec)>, m: MathLib)
  {
    |trail| == |rs| + 1 && forall k {:trigger Link(q, rs, trail, m, k)} :: 0 <= k < |rs| ==> Link(q, rs, trail, m, k)
  }

  /** A chain grows by one bounce. */
  lemma ChainedExtend(q: Quad, rs: seq<Quad>, trail: seq<(Vec, Vec)>, r: Quad, next: (Vec, Vec), m: MathLib)
    requires Chained(q, rs, trail, m)
    requires next == BounceOnce(q, r, trail[|rs|].0, trail[|rs|].1, m)
    ensures Chained(q, rs + [r], trail + [next], m)
  {
    forall k | 0 <= k < |rs| + 1
      ensures Link(q, rs + [r], trail + [next], m, k)
    {
      if k < |rs| {
        assert Link(q, rs, trail, m, k);
      }
    }
  }

  /** The last state of a chain is the fold of the bounces over the obstacles. */
  lemma {:induction false} ChainedBounce(q: Quad, rs: seq<Quad>, trail: seq<(Vec, Vec)>, m: MathLib)
    requires Chained(q, rs, trail, m)
    ensures trail[|rs|] == Bounce(q, rs, trail[0].0, trail[0].1, m)
  {
    if rs != [] {
      var k := |rs| - 1;
      assert Link(q, rs, trail, m, k);
      var shorter, fewer := rs[..k], trail[..k + 1];
      forall j | 0 <= j < k
        ensures Link(q, shorter, fewer, m, j)
      {
        assert Link(q, rs, trail, m, j);
      }
      ChainedBounce(q, shorter, fewer, m);
    }
  }

  /** The character's square payload, turned to its orientation when sprites turn. */
  function Facing(p: Vec, orientation: real, turnSprites: bool, m: MathLib): (q: Quad)
    ensures Centroid(q) == Vec(p.x + Size / 2.0, p.y + Size / 2.0)
  {
    var square := Square(p, Size);
    RotateKeepsCentroid(square, orientation, m);
    if turnSprites then RotateQuad(square, orientation, Zero, m) else square
  }

  /**
   * getWeaponPosition: the square stretched by the reach to the right,
   * turned to the orientation about a centre half the reach to the left of
   * the stretched shape's centroid.
   */
  function Weapon(p: Vec, orientation: real, m: MathLib): (q: Quad)
    ensures orientation == 0.0 && m.cos(0.0) == 1.0 && m.sin(0.0) == 0.0 ==>
              q.a == p && q.c == Vec(p.x + Size + Reach, p.y + Size)
  {
    var far := p.x + Size + Reach;
    RotateQuad(Quad(p, Vec(far, p.y), Vec(far, p.y + Size), Vec(p.x, p.y + Size)),
               orientation, Vec(Reach / 2.0, 0.0), m)
  }

  /** getInitialPosition: player 0 starts near the top-left corner, any other near the bottom-right. */
  function InitialPosition(player: nat, width: real, height: real): (p: Vec)
    ensures width >= Size + 2.0 * Margin && height >= Size + 2.0 * Margin ==>
              Margin <= p.x <= width - Size - Margin && Margin <= p.y <= height - Size - Margin
  {
    if player == 0 then Vec(Margin, Margin) else Vec(width - Margin - Size, height - Margin - Size)
  }

  function Digit(d: nat): char
    requires d < 10
  {
    (48 + d) as char
  }

  /** The decimal digits of a number. */
  function Decimal(n: nat): (s: string)
    ensures |s| >= 1 && forall k :: 0 <= k < |s| ==> '0' <= s[k] <= '9'
  {
    if n < 10 then [Digit(n)] else Decimal(n / 10) + [Digit(n % 10)]
  }

  /** The number a string of decimal digits spells. */
  function DecimalValue(s: string): nat
  {
    if s == [] then 0
    else
      var d := s[|s| - 1] as int - 48;
      DecimalValue(s[..|s| - 1]) * 10 + (if 0 <= d then d else 0)
  }

  /** Reading back the digits of a number gives the number. */
  lemma {:induction false} DecimalRoundTrip(n: nat)
    ensures DecimalValue(Decimal(n)) == n
  {
    if n >= 10 {
      DecimalRoundTrip(n / 10);
      var s := Decimal(n);
      assert s[..|s| - 1] == Decimal(n / 10);
    }
  }

  /** The id of a player's obstacle: "player" and the player's number. */
  function PlayerId(player: nat): (id: string)
    ensures |id| > 6 && id[..6] == "player" && DecimalValue(id[6..]) == player
  {
    var id := "player" + Decimal(player);
    DecimalRoundTrip(player);
    assert id[6..] == Decimal(player);
    id
  }

  /** Different players get different obstacle ids. */
  lemma PlayerIdInjective(a: nat, b: nat)
    requires PlayerId(a) == PlayerId(b)
    ensures a == b
  {
  }

  /**
   * collide keeps the opponent: another player's obstacle in the registry
   * survives the filter on the character's own id.
   */
  lemma OpponentCollidable(items: seq<Obstacle>, mine: Obstacle, theirs: Obstacle, a: nat, b: nat)
    requires mine.id == PlayerId(a) && theirs.id == PlayerId(b) && a != b && theirs in items
    ensures theirs in Without(items, mine.id)
  {
    if theirs.id == mine.id {
      PlayerIdInjective(a, b);
    }
  }

  /** The index of the other player of a two-player game. */
  function Opponent(player: nat): (o: nat)
    ensures o != player && o <= 1
  {
    if player == 0 then 1 else 0
  }

  /** In a two-player game each player is the other's opponent. */
  lemma OpponentMutual(player: nat)
    requires player <= 1
    ensures Opponent(Opponent(player)) == player
  {
  }

  /** The number of cooldown expiries among the pending timers. */
  function PendingCooldowns(ts: seq<Timer>): nat
  {
    if ts == [] then 0
    else PendingCooldowns(ts[..|ts| - 1]) + (if ts[|ts| - 1].expiry == EndCooldown then 1 else 0)
  }

  lemma {:induction false} PendingAppend(ts: seq<Timer>, us: seq<Timer>)
    ensures PendingCooldowns(ts + us) == PendingCooldowns(ts) + PendingCooldowns(us)
  {
    if us == [] {
      assert ts + us == ts;
    } else {
      assert (ts + us)[..|ts + us| - 1] == ts + us[..|us| - 1];
      PendingAppend(ts, us[..|us| - 1]);
    }
  }

  /** The cooldown flag is set exactly while its one expiry is pending. */
  ghost predicate CooldownTracked(a: Action, ts: seq<Timer>)
  {
    (a.cooldown <==> PendingCooldowns(ts) > 0) && PendingCooldowns(ts) <= 1
  }

  /** attack and block: the cooldown goes on, and an end timer and a cooldown timer are scheduled. */
  function Engage(a: Action, ts: seq<Timer>, end: Timer): (Action, seq<Timer>)
  {
    (a.(cooldown := true), ts + [end, Timer(EndCooldown, CooldownDuration)])
  }

  /** Engaging from a state without cooldown keeps the cooldown tracked by exactly one timer. */
  lemma EngageKeepsTracked(a: Action, ts: seq<Timer>, end: Timer)
    requires CooldownTracked(a, ts) && !a.cooldown && end.expiry != EndCooldown
    ensures CooldownTracked(Engage(a, ts, end).0, Engage(a, ts, end).1)
  {
    var added := [end, Timer(EndCooldown, CooldownDuration)];
    PendingAppend(ts, added);
    assert PendingCooldowns([end]) == 0 by {
      assert [end][..0] == [];
    }
    assert PendingCooldowns(added) == 1 by {
      assert added[..1] == [end];
    }
  }

  /** What a timer's callback does to the action. */
  function Expired(a: Action, e: Expiry): Action
  {
    match e
    case EndAttack => a.(attacking := false)
    case EndBlock => a.(blocking := false)
    case EndCooldown => a.(cooldown := false)
  }

  /** The pending timers without the k-th, which has fired. */
  function Dropped(ts: seq<Timer>, k: nat): (r: seq<Timer>)
    requires k < |ts|
    ensures |r| == |ts| - 1
    ensures forall j :: 0 <= j < k ==> r[j] == ts[j]
    ensures forall j :: k <= j < |r| ==> r[j] == ts[j + 1]
  {
    ts[..k] + ts[k + 1..]
  }

  /** Firing any pending timer keeps the cooldown tracked. */
  lemma ExpireKeepsTracked(a: Action, ts: seq<Timer>, k: nat)
    requires CooldownTracked(a, ts) && k < |ts|
    ensures CooldownTracked(Expired(a, ts[k].expiry), Dropped(ts, k))
  {
    assert ts == ts[..k] + [ts[k]] + ts[k + 1..];
    PendingAppend(ts[..k] + [ts[k]], ts[k + 1..]);
    PendingAppend(ts[..k], [ts[k]]);
    PendingAppend(ts[..k], ts[k + 1..]);
    assert [ts[k]][..0] == [];
  }

  /** The timers one run of the actions schedules: an attack's, else a block's, else none. */
  function Scheduled(a: Action): (ts: seq<Timer>)
    ensures |ts| == 0 || |ts| == 2
    ensures a.cooldown ==> ts == []
    ensures a.attacking && !a.cooldown ==> |ts| == 2 && ts[0] == Timer(EndAttack, AttackDuration)
  {
    if a.cooldown then []
    else if a.attacking then [Timer(EndAttack, AttackDuration), Timer(EndCooldown, CooldownDuration)]
    else if a.blocking then [Timer(EndBlock, BlockDuration), Timer(EndCooldown, CooldownDuration)]
    else []
  }

  /**
   * The action and the timers after attack then block: an attack intent
   * without cooldown engages the attack, else a block intent without
   * cooldown engages the block.
   */
  function Acted(a: Action, ts: seq<Timer>): (Action, seq<Timer>)
  {
    if a.cooldown then (a, ts)
    else if a.attacking then Engage(a, ts, Timer(EndAttack, AttackDuration))
    else if a.blocking then Engage(a, ts, Timer(EndBlock, BlockDuration))
    else (a, ts)
  }

  /**
   * attack then block schedule exactly the timers Scheduled names, set the
   * cooldown whenever they schedule any, and keep the cooldown tracked.
   */
  lemma ActedSchedules(a: Action, ts: seq<Timer>)
    requires CooldownTracked(a, ts)
    ensures Acted(a, ts).1 == ts + Scheduled(a)
    ensures Acted(a, ts).0 == if Scheduled(a) == [] then a else a.(cooldown := true)
    ensures CooldownTracked(Acted(a, ts).0, Acted(a, ts).1)
  {
    if !a.cooldown && a.attacking {
      EngageKeepsTracked(a, ts, Timer(EndAttack, AttackDuration));
    } else if !a.cooldown && a.blocking {
      EngageKeepsTracked(a, ts, Timer(EndBlock, BlockDuration));
    } else {
      assert ts + [] == ts;
    }
  }

  /** After attack and block have run, another run schedules nothing until a timer fires. */
  lemma ActedSettles(a: Action, ts: seq<Timer>)
    ensures Scheduled(Acted(a, ts).0) == []
  {
  }

  /** Acting twice in a row without a timer firing in between is acting once. */
  lemma ActedOnce(a: Action, ts: seq<Timer>)
    ensures Acted(Acted(a, ts).0, Acted(a, ts).1) == Acted(a, ts)
  {
  }

  /** What one run of the actions may change about a character, its obstacle's payload included. */
  datatype Fighter = Fighter(active: bool, position: Vec, orientation: real, velocity: Vec,
                             action: Action, timers: seq<Timer>, payload: Quad)

  /**
   * What never changes about a character: its number, the arena, whether
   * its sprites turn, and the maths it and its collider use. The game has
   * one global Math for both; the model keeps the two apart, so nothing
   * proved here depends on their being the same.
   */
  datatype Setup = Setup(player: nat, width: real, height: real, turnSprites: bool, math: MathLib, detect: MathLib)

  /**
   * What a run reads of the rest of the game: the opponent's position, the
   * payloads of the registered obstacles with another id, in registry order,
   * and the opponent's payload and block intent.
   */
  datatype Scene = Scene(target: Vec, others: seq<Quad>, opponent: Quad, guarded: bool)

  /** move: the stepped and confined position, the square payload there, the pushed or slowed velocity. */
  function Moved(c: Setup, s: Fighter): Fighter
  {
    var p := Stepped(s.position, s.velocity, s.action, c.width, c.height);
    s.(position := p, velocity := Accelerated(s.velocity, s.action), payload := Square(p, Size))
  }

  /** turn: facing the target, with the facing payload. */
  function Turned(c: Setup, s: Fighter, target: Vec): Fighter
  {
    var o := c.math.atan2(target.y - s.position.y, target.x - s.position.x);
    s.(orientation := o, payload := Facing(s.position, o, c.turnSprites, c.math))
  }

  /** collide: the velocity bounced off each payload in turn, and the record's direction after the last test. */
  function Collided(c: Setup, s: Fighter, n: Vec, others: seq<Quad>): (Fighter, Vec)
  {
    var b := Bounce(s.payload, others, s.velocity, n, c.detect);
    (s.(velocity := b.0), b.1)
  }

  /** setActive, through reset: back to the start at rest, moved once, then (in)active. */
  function Reset(c: Setup, s: Fighter, on: bool): Fighter
  {
    Moved(c, s.(position := InitialPosition(c.player, c.width, c.height), velocity := Zero)).(active := on)
  }

  /**
   * strike: nothing against a block; otherwise the weapon is tested against
   * the opponent's payload (leaving the record's direction as that scan
   * does), and a hit finishes the round.
   */
  function Struck(c: Setup, s: Fighter, n: Vec, opponent: Quad, guarded: bool): (Fighter, Vec, Outcome)
  {
    if guarded then (s, n, Blocked)
    else
      var weapon := Weapon(s.position, s.orientation, c.math);
      var aim := QuadsScan(weapon, opponent, Seed(n), c.detect).overlapN;
      if QuadsHit(weapon, opponent, c.detect) then (Reset(c, s, false), aim, Won) else (s, aim, Missed)
  }

  /** attack: with an attack intent, no cooldown and while active, the attack is engaged and strikes. */
  function Attacked(c: Setup, s: Fighter, n: Vec, opponent: Quad, guarded: bool): (Fighter, Vec, Outcome)
  {
    if !(s.active && s.action.attacking && !s.action.cooldown) then (s, n, Idle)
    else
      var engaged := Engage(s.action, s.timers, Timer(EndAttack, AttackDuration));
      Struck(c, s.(action := engaged.0, timers := engaged.1), n, opponent, guarded)
  }

  /** block: with a block intent and no cooldown, the block is engaged. */
  function Braced(s: Fighter): Fighter
  {
    if s.action.blocking && !s.action.cooldown then
      var engaged := Engage(s.action, s.timers, Timer(EndBlock, BlockDuration));
      s.(action := engaged.0, timers := engaged.1)
    else s
  }

  /** attack, then block. */
  function Fought(c: Setup, s: Fighter, n: Vec, opponent: Quad, guarded: bool): (Fighter, Vec, Outcome)
  {
    var attacked := Attacked(c, s, n, opponent, guarded);
    (Braced(attacked.0), attacked.1, attacked.2)
  }

  /**
   * executeCharacterActions: an inactive character does nothing; an active
   * one moves, turns to the opponent, collides, attacks and blocks.  The
   * result is the character, the record's direction and the outcome.
   */
  function Run(c: Setup, s: Fighter, n: Vec, scene: Scene): (Fighter, Vec, Outcome)
  {
    if !s.active then (s, n, Idle)
    else
      var travelled := Collided(c, Turned(c, Moved(c, s), scene.target), n, scene.others);
      Fought(c, travelled.0, travelled.1, scene.opponent, scene.guarded)
  }

  /** A run is nothing for an inactive character, and otherwise its travel followed by its fight. */
  lemma RunSteps(c: Setup, s: Fighter, n: Vec, scene: Scene)
    ensures !s.active ==> Run(c, s, n, scene) == (s, n, Idle)
    ensures s.active ==> var t := Collided(c, Turned(c, Moved(c, s), scene.target), n, scene.others);
      Run(c, s, n, scene) == Fought(c, t.0, t.1, scene.opponent, scene.guarded)
  {
  }

  /** k steps in a row, each from where the last left off, with the outcome of each. */
  function Repeat(k: nat, step: (Fighter, Vec) -> (Fighter, Vec, Outcome), s: Fighter, n: Vec)
    : (Fighter, Vec, seq<Outcome>)
  {
    if k == 0 then (s, n, [])
    else
      var before := Repeat(k - 1, step, s, n);
      var last := step(before.0, before.1);
      (last.0, last.1, before.2 + [last.2])
  }

  /** k + 1 steps are one step followed by k more. */
  lemma {:induction false} RepeatFirst(k: nat, step: (Fighter, Vec) -> (Fighter, Vec, Outcome), s: Fighter, n: Vec)
    ensures var first := step(s, n);
      var rest := Repeat(k, step, first.0, first.1);
      Repeat(k + 1, step, s, n) == (rest.0, rest.1, [first.2] + rest.2)
  {
    if k > 0 {
      RepeatFirst(k - 1, step, s, n);
      var first := step(s, n);
      var rest := Repeat(k - 1, step, first.0, first.1);
      var last := step(rest.0, rest.1);
      assert Repeat(k, step, s, n) == (rest.0, rest.1, [first.2] + rest.2);
      assert Repeat(k, step, first.0, first.1) == (last.0, last.1, rest.2 + [last.2]);
      assert [first.2] + (rest.2 + [last.2]) == ([first.2] + rest.2) + [last.2];
    } else {
      assert [] + [step(s, n).2] == [step(s, n).2] + [];
    }
  }

  /** One run against a fixed scene, as a step. */
  function RunIn(c: Setup, scene: Scene): (Fighter, Vec) -> (Fighter, Vec, Outcome)
  {
    (s: Fighter, n: Vec) => Run(c, s, n, scene)
  }

  /** k runs in a row against the same scene, with the outcome of each. */
  function Runs(k: nat, c: Setup, s: Fighter, n: Vec, scene: Scene): (Fighter, Vec, seq<Outcome>)
  {
    Repeat(k, RunIn(c, scene), s, n)
  }

  /** A character with nothing left to engage: inactive, or an action that schedules nothing. */
  predicate Spent(s: Fighter)
  {
    s.active ==> Scheduled(s.action) == []
  }

  /**
   * One run attacks exactly when the character is active with an attack
   * intent and no cooldown; an active run leaves the action and timers as
   * attack then block do; an inactive one changes nothing; a win leaves the
   * character inactive.
   */
  lemma RunActs(c: Setup, s: Fighter, n: Vec, scene: Scene)
    ensures var r := Run(c, s, n, scene);
      && (r.2 != Idle <==> s.active && s.action.attacking && !s.action.cooldown)
      && (s.active ==> (r.0.action, r.0.timers) == Acted(s.action, s.timers))
      && (!s.active ==> r == (s, n, Idle))
      && (r.2 == Won ==> !r.0.active)
      && (r.2 != Won ==> r.0.active == s.active)
  {
  }

  /** After one run nothing is left to engage until a timer fires. */
  lemma RunSpends(c: Setup, s: Fighter, n: Vec, scene: Scene)
    ensures Spent(Run(c, s, n, scene).0)
  {
    RunActs(c, s, n, scene);
    ActedSettles(s.action, s.timers);
  }

  /**
   * Runs of a spent character attack nothing and schedule nothing: every
   * outcome is Idle and the activity, action and timers stay; an inactive
   * character does not change at all.
   */
  lemma {:induction false} RunsSpent(k: nat, c: Setup, s: Fighter, n: Vec, scene: Scene)
    requires Spent(s)
    ensures var r := Runs(k, c, s, n, scene);
      && |r.2| == k && (forall j :: 0 <= j < k ==> r.2[j] == Idle)
      && r.0.active == s.active && r.0.action == s.action && r.0.timers == s.timers
      && (!s.active ==> r.0 == s && r.1 == n)
  {
    if k > 0 {
      RunsSpent(k - 1, c, s, n, scene);
      var before := Runs(k - 1, c, s, n, scene);
      RunActs(c, before.0, before.1, scene);
      assert Runs(k, c, s, n, scene) == Repeat(k, RunIn(c, scene), s, n);
    }
  }

  /** k + 1 runs are one run followed by k more. */
  lemma RunsFirst(k: nat, c: Setup, s: Fighter, n: Vec, scene: Scene)
    ensures var first := Run(c, s, n, scene);
      var rest := Runs(k, c, first.0, first.1, scene);
      Runs(k + 1, c, s, n, scene) == (rest.0, rest.1, [first.2] + rest.2)
  {
    RepeatFirst(k, RunIn(c, scene), s, n);
  }

  /** The runs of an inactive character do not depend on the scene. */
  lemma RunsInactive(k: nat, c: Setup, s: Fighter, n: Vec, scene: Scene, other: Scene)
    requires !s.active
    ensures Runs(k, c, s, n, scene) == Runs(k, c, s, n, other)
  {
    RunsSpent(k, c, s, n, scene);
    RunsSpent(k, c, s, n, other);
    var r, t := Runs(k, c, s, n, scene), Runs(k, c, s, n, other);
    assert r.2 == t.2;
  }

  /**
   * A tick of 1 + k runs: only the first can attack, the action and the
   * timers end as one run of attack then block leaves them, and an inactive
   * character does not change.
   */
  lemma TickActsOnce(k: nat, c: Setup, s: Fighter, n: Vec, scene: Scene)
    ensures var r := Runs(k + 1, c, s, n, scene);
      && |r.2| == k + 1
      && (r.2[0] != Idle <==> s.active && s.action.attacking && !s.action.cooldown)
      && (forall j :: 1 <= j < |r.2| ==> r.2[j] == Idle)
      && (s.active ==> (r.0.action, r.0.timers) == Acted(s.action, s.timers))
      && (!s.active ==> r.0 == s && r.1 == n)
  {
    var first := Run(c, s, n, scene);
    RunsFirst(k, c, s, n, scene);
    RunActs(c, s, n, scene);
    RunSpends(c, s, n, scene);
    RunsSpent(k, c, first.0, first.1, scene);
  }

  /** Everything one test with the shared collider may change. */
  ghost predicate PoolReady(c: Collider)
    reads c, c.testPoint
  {
    c.Valid() && |c.vectors| >= 1 && |c.arrays| >= 2
  }

  /** A fighter, its obstacle registered under "player" and its number. */
  class Character {
    const player: nat
    const width: real
    const height: real
    const turnSprites: bool
    const math: MathLib
    const collider: Collider
    const obstacles: Registry
    const obstacle: Obstacle
    var active: bool
    var position: Vec
    var orientation: real
    var velocity: Vec
    var action: Action
    var timers: seq<Timer>

    ghost predicate Valid()
      reads this
    {
      obstacle.collider == collider && CooldownTracked(action, timers)
    }

    /**
     * An inactive character at its starting position, at rest, facing
     * angle zero, whose square obstacle is appended to the shared list.
     */
    constructor (player: nat, width: real, height: real, turnSprites: bool, m: MathLib,
                 collider: Collider, obstacles: Registry)
      modifies obstacles
      ensures Valid() && !active && fresh(obstacle)
      ensures this.player == player && this.width == width && this.height == height
      ensures this.turnSprites == turnSprites && math == m
      ensures this.collider == collider && this.obstacles == obstacles
      ensures position == InitialPosition(player, width, height) && velocity == Zero && orientation == 0.0
      ensures action == Resting && timers == []
      ensures obstacle.id == PlayerId(player) && obstacle.payload == Square(position, Size)
      ensures obstacles.items == old(obstacles.items) + [obstacle]
    {
      this.player := player;
      this.width := width;
      this.height := height;
      this.turnSprites := turnSprites;
      math := m;
      this.collider := collider;
      this.obstacles := obstacles;
      active := false;
      var start := InitialPosition(player, width, height);
      position := start;
      orientation := 0.0;
      velocity := Zero;
      action := Resting;
      timers := [];
      obstacle := new Obstacle(collider, obstacles, PlayerId(player), Square(start, Size));
    }

    /**
     * move: the position steps by the input plus the velocity and is
     * confined to the arena; the obstacle becomes the square at the new
     * position; then each velocity component is pushed by its input or
     * slowed, and clamped to the maximum.
     */
    method Move()
      modifies this, obstacle
      ensures position == Stepped(old(position), old(velocity), old(action), width, height)
      ensures velocity == Accelerated(old(velocity), old(action))
      ensures obstacle.payload == Square(position, Size)
      ensures active == old(active) && action == old(action) && timers == old(timers)
      ensures orientation == old(orientation)
    {
      var newX := position.x + action.movingX + velocity.x;
      var newY := position.y + action.movingY + velocity.y;
      var x, y := newX, newY;
      if x < 0.0 {
        x := 0.0;
      } else if newX > width - Size {
        x := width - Size;
      }
      if y < 0.0 {
        y := 0.0;
      } else if newY > height - Size {
        y := height - Size;
      }
      assert Vec(x, y) == Stepped(position, velocity, action, width, height);
      var vx := if action.movingX != 0.0 then velocity.x + action.movingX else velocity.x * 0.8;
      var vy := if action.movingY != 0.0 then velocity.y + action.movingY else velocity.y * 0.8;
      var v := Vec(Clamp(vx, MaxVelocity * -1.0, MaxVelocity), Clamp(vy, MaxVelocity * -1.0, MaxVelocity));
      assert v == Accelerated(velocity, action);
      position := Vec(x, y);
      obstacle.EditObstacle(Square(position, Size));
      velocity := v;
    }

    /**
     * turn: face the target (the other player's position) and make the
     * obstacle the square, turned when sprites turn.
     */
    method Turn(target: Vec)
      modifies this, obstacle
      ensures orientation == math.atan2(target.y - position.y, target.x - position.x)
      ensures obstacle.payload == Facing(position, orientation, turnSprites, math)
      ensures position == old(position) && velocity == old(velocity)
      ensures active == old(active) && action == old(action) && timers == old(timers)
    {
      orientation := math.atan2(target.y - position.y, target.x - position.x);
      obstacle.EditObstacle(Facing(position, orientation, turnSprites, math));
    }

    /**
     * collide: test the obstacle against every registered obstacle with
     * another id, in registry order, bouncing off each one it overlaps.
     */
    method Collide()
      requires Valid() && PoolReady(collider)
      modifies this, collider, collider.details, collider.details.overlapN, collider.details.overlapV
      modifies collider.arrays[|collider.arrays| - 1], collider.arrays[|collider.arrays| - 2]
      modifies collider.vectors[|collider.vectors| - 1]
      ensures Valid() && PoolReady(collider) && collider.vectors == old(collider.vectors)
      ensures collider.arrays == old(collider.arrays) || collider.arrays == SwapTop(old(collider.arrays))
      ensures (velocity, collider.details.overlapN.Value()) ==
        Bounce(obstacle.payload, old(Payloads(Without(obstacles.items, obstacle.id))),
               old(velocity), old(collider.details.overlapN.Value()), collider.math)
      ensures position == old(position) && orientation == old(orientation)
      ensures active == old(active) && action == old(action) && timers == old(timers)
    {
      var others := Without(obstacles.items, obstacle.id);
      ghost var qs := Payloads(others);
      ghost var q, pose := obstacle.payload, Pose();
      ghost var start := (velocity, collider.details.overlapN.Value());
      ghost var trail := [start];
      ghost var vs0, rs0 := collider.vectors, collider.arrays;
      var i := 0;
      while i < |others|
        invariant i <= |others| && Pose() == pose && obstacle.payload == q
        invariant Valid() && PoolReady(collider) && collider.vectors == vs0
        invariant rs0 == old(collider.arrays) && vs0 == old(collider.vectors)
        invariant collider.arrays == rs0 || collider.arrays == SwapTop(rs0)
        invariant Chained(q, qs[..i], trail, collider.math) && trail[0] == start
        invariant trail[i] == (velocity, collider.details.overlapN.Value())
      {
        trail := BounceNext(others, i, rs0, vs0, q, qs, trail);
        i := i + 1;
      }
      assert qs[..|others|] == qs;
      ChainedBounce(q, qs, trail, collider.math);
    }

    /** Everything about a character that its actions may change, its obstacle's payload included. */
    ghost function State(): Fighter
      reads this, obstacle
    {
      Fighter(active, position, orientation, velocity, action, timers, obstacle.payload)
    }

    /** What never changes about this character. */
    function Setting(): Setup
    {
      Setup(player, width, height, turnSprites, math, collider.math)
    }

    /** The overlap direction the shared collider's record holds. */
    ghost function Direction(): Vec
      reads collider.details.overlapN
    {
      collider.details.overlapN.Value()
    }

    /** What a run of this character reads of the opponent and of the registry. */
    ghost function SceneOf(other: Character): Scene
      reads obstacles, (set o | o in obstacles.items), other, other.obstacle
    {
      Scene(other.position, Payloads(Without(obstacles.items, obstacle.id)), other.obstacle.payload,
            other.action.blocking)
    }

    /** The fields collide leaves alone. */
    ghost function Pose(): (bool, Vec, real, Action, seq<Timer>)
      reads this
    {
      (active, position, orientation, action, timers)
    }

    /** One obstacle of collide, as the next link of the chain of states. */
    method BounceNext(others: seq<Obstacle>, i: nat, ghost base: seq<array<real>>, ghost pool: seq<Vector>,
                      ghost q: Quad, ghost qs: seq<Quad>, ghost trail: seq<(Vec, Vec)>)
      returns (ghost longer: seq<(Vec, Vec)>)
      requires i < |others| == |qs| && others[i].payload == qs[i]
      requires Valid() && PoolReady(collider) && collider.vectors == pool && obstacle.payload == q
      requires |base| >= 2 && (collider.arrays == base || collider.arrays == SwapTop(base))
      requires Chained(q, qs[..i], trail, collider.math)
      requires trail[i] == (velocity, collider.details.overlapN.Value())
      modifies this, collider, collider.details, collider.details.overlapN, collider.details.overlapV
      modifies base[|base| - 1], base[|base| - 2], pool[|pool| - 1]
      ensures Valid() && PoolReady(collider) && collider.vectors == pool && obstacle.payload == q
      ensures collider.arrays == base || collider.arrays == SwapTop(base)
      ensures Chained(q, qs[..i + 1], longer, collider.math)
      ensures longer[0] == trail[0] && longer[i + 1] == (velocity, collider.details.overlapN.Value())
      ensures Pose() == old(Pose())
    {
      assert qs[..i] + [qs[i]] == qs[..i + 1];
      BounceOff(others[i], base, pool, q, qs[i], trail[i]);
      longer := trail + [(velocity, collider.details.overlapN.Value())];
      ChainedExtend(q, qs[..i], trail, qs[i], longer[i + 1], collider.math);
    }

    /** One obstacle of collide: the test, and on a collision the bounce off the overlap vector. */
    method BounceOff(other: Obstacle, ghost base: seq<array<real>>, ghost pool: seq<Vector>, ghost q: Quad, ghost r: Quad, ghost s: (Vec, Vec))
      requires Valid() && PoolReady(collider) && collider.vectors == pool
      requires |base| >= 2 && (collider.arrays == base || collider.arrays == SwapTop(base))
      requires obstacle.payload == q && other.payload == r && (velocity, collider.details.overlapN.Value()) == s
      modifies this, collider, collider.details, collider.details.overlapN, collider.details.overlapV
      modifies base[|base| - 1], base[|base| - 2], pool[|pool| - 1]
      ensures Valid() && PoolReady(collider) && collider.vectors == pool
      ensures collider.arrays == base || collider.arrays == SwapTop(base)
      ensures obstacle.payload == q
      ensures (velocity, collider.details.overlapN.Value()) == BounceOnce(q, r, s.0, s.1, collider.math)
      ensures position == old(position) && orientation == old(orientation)
      ensures active == old(active) && action == old(action) && timers == old(timers)
    {
      var hit := Contact(other, base, pool, q, r, s);
      if hit {
        velocity := Rebound(velocity, collider.details.overlapV.Value());
      }
    }

    /**
     * The test of one obstacle of collide: the direction the collider's
     * record is left with, and the overlap vector a collision bounces off.
     */
    method Contact(other: Obstacle, ghost base: seq<array<real>>, ghost pool: seq<Vector>, ghost q: Quad, ghost r: Quad, ghost s: (Vec, Vec))
      returns (hit: bool)
      requires obstacle.collider == collider && PoolReady(collider) && collider.vectors == pool
      requires |base| >= 2 && (collider.arrays == base || collider.arrays == SwapTop(base))
      requires obstacle.payload == q && other.payload == r && collider.details.overlapN.Value() == s.1
      modifies collider, collider.details, collider.details.overlapN, collider.details.overlapV
      modifies base[|base| - 1], base[|base| - 2], pool[|pool| - 1]
      ensures PoolReady(collider) && collider.vectors == pool
      ensures collider.arrays == base || collider.arrays == SwapTop(base)
      ensures var next := BounceOnce(q, r, s.0, s.1, collider.math);
        collider.details.overlapN.Value() == next.1 &&
        next.0 == if hit then Rebound(s.0, collider.details.overlapV.Value()) else s.0
    {
      hide BounceOnce, QuadsHit, QuadsScan;
      ghost var d, rs := collider.details.Value(), collider.arrays;
      SameTopTwo(rs, base);
      hit := obstacle.CollidesWith(other);
      BounceStep(q, r, s.0, d, collider.details.Value(), hit, collider.math);
      if collider.arrays != rs && rs != base {
        SwapTopTwice(base);
      }
    }

    /** block: with a block intent and no cooldown, the cooldown goes on and both timers start. */
    method Block()
      requires Valid()
      modifies this
      ensures Valid() && State() == Braced(old(State()))
    {
      if !action.blocking || action.cooldown {
        return;
      }
      EngageKeepsTracked(action, timers, Timer(EndBlock, BlockDuration));
      action := action.(cooldown := true);
      timers := timers + [Timer(EndBlock, BlockDuration), Timer(EndCooldown, CooldownDuration)];
    }

    /** A timer's callback runs: its effect on the action, and it is no longer pending. */
    method Expire(k: nat)
      requires Valid() && k < |timers|
      modifies this
      ensures Valid()
      ensures action == Expired(old(action), old(timers[k].expiry)) && timers == Dropped(old(timers), k)
      ensures active == old(active) && position == old(position) && velocity == old(velocity)
      ensures orientation == old(orientation)
    {
      ExpireKeepsTracked(action, timers, k);
      action := Expired(action, timers[k].expiry);
      timers := Dropped(timers, k);
    }

    /**
     * The attack key or button: the intent is taken only without cooldown,
     * and a key only while the character is active.
     */
    method PressAttack(keyboard: bool)
      requires Valid()
      modifies this
      ensures Valid()
      ensures action == if (active || !keyboard) && !old(action.cooldown)
                        then old(action).(attacking := true) else old(action)
      ensures active == old(active) && timers == old(timers) && position == old(position)
      ensures velocity == old(velocity) && orientation == old(orientation)
    {
      if (!keyboard || active) && !action.cooldown {
        action := action.(attacking := true);
      }
    }

    /** The block key or button, gated like the attack. */
    method PressBlock(keyboard: bool)
      requires Valid()
      modifies this
      ensures Valid()
      ensures action == if (active || !keyboard) && !old(action.cooldown)
                        then old(action).(blocking := true) else old(action)
      ensures active == old(active) && timers == old(timers) && position == old(position)
      ensures velocity == old(velocity) && orientation == old(orientation)
    {
      if (!keyboard || active) && !action.cooldown {
        action := action.(blocking := true);
      }
    }

    /**
     * setActive, through reset: back to the starting position at rest,
     * moved once (so the current input still applies), then (in)active.
     */
    method SetActive(on: bool)
      modifies this, obstacle
      ensures State() == Reset(Setting(), old(State()), on)
    {
      hide Stepped, Accelerated, Square;
      position := InitialPosition(player, width, height);
      velocity := Zero;
      Move();
      active := on;
    }

    /**
     * The weapon test of strike: a polygon-polygon test, without details,
     * of the weapon against the target's payload.
     */
    method Swing(weapon: Quad, target: Quad) returns (hit: bool)
      requires PoolReady(collider)
      modifies collider, collider.details, collider.details.overlapN, collider.details.overlapV
      modifies collider.arrays[|collider.arrays| - 1], collider.arrays[|collider.arrays| - 2]
      modifies collider.vectors[|collider.vectors| - 1]
      ensures PoolReady(collider) && collider.vectors == old(collider.vectors)
      ensures collider.arrays == old(collider.arrays) || collider.arrays == SwapTop(old(collider.arrays))
      ensures hit == QuadsHit(weapon, target, collider.math)
      ensures Direction() == QuadsScan(weapon, target, Seed(old(Direction())), collider.math).overlapN
    {
      hide PolygonsHit, PolygonsScan, QuadRing, NormalsOf, EdgesOf;
      ghost var d := collider.details.Value();
      var mine, theirs := PayloadPolygons(weapon, target, collider.math);
      hit := collider.TestPolygonPolygon(mine, theirs, false);
      PolygonsScanFromDirection(QuadPair(weapon, target), d, QuadAxes(weapon, target, collider.math));
    }

    /**
     * strike: against a blocking opponent nothing is tested; otherwise the
     * weapon is tested against the opponent's payload, and a hit wins the
     * round, which (through the game's countdown listener) deactivates and
     * resets both players.
     */
    method Strike(other: Character) returns (outcome: Outcome)
      requires PoolReady(collider) && other != this && other.obstacle != obstacle
      modifies this, obstacle, other, other.obstacle
      modifies collider, collider.details, collider.details.overlapN, collider.details.overlapV
      modifies collider.arrays[|collider.arrays| - 1], collider.arrays[|collider.arrays| - 2]
      modifies collider.vectors[|collider.vectors| - 1]
      ensures PoolReady(collider) && collider.vectors == old(collider.vectors)
      ensures collider.arrays == old(collider.arrays) || collider.arrays == SwapTop(old(collider.arrays))
      ensures var r := Struck(Setting(), old(State()), old(Direction()), old(other.obstacle.payload),
                              old(other.action.blocking));
        State() == r.0 && Direction() == r.1 && outcome == r.2
      ensures other.State() ==
        if outcome == Won then Reset(other.Setting(), old(other.State()), false) else old(other.State())
    {
      hide Reset, QuadsHit, QuadsScan, Weapon;
      if other.action.blocking {
        return Blocked;
      }
      var hit := Swing(Weapon(position, orientation, math), other.obstacle.payload);
      outcome := Settle(other, hit);
    }

    /** The end of strike: a hit finishes the round, a miss changes nothing. */
    method Settle(other: Character, hit: bool) returns (outcome: Outcome)
      requires other != this && other.obstacle != obstacle
      modifies this, obstacle, other, other.obstacle
      ensures outcome == (if hit then Won else Missed)
      ensures State() == if hit then Reset(Setting(), old(State()), false) else old(State())
      ensures other.State() == if hit then Reset(other.Setting(), old(other.State()), false) else old(other.State())
    {
      if !hit {
        return Missed;
      }
      Finish(other);
      outcome := Won;
    }

    /** The game's countdown listener after a win: both players are set inactive, in player order. */
    method Finish(other: Character)
      requires other != this && other.obstacle != obstacle
      modifies this, obstacle, other, other.obstacle
      ensures State() == Reset(Setting(), old(State()), false)
      ensures other.State() == Reset(other.Setting(), old(other.State()), false)
    {
      if player <= other.player {
        SetActive(false);
        other.SetActive(false);
      } else {
        other.SetActive(false);
        SetActive(false);
      }
    }

    /**
     * attack: only an active player with an attack intent and no cooldown
     * attacks; the cooldown goes on, the attack's end and the cooldown's end
     * are scheduled, and the strike follows.
     */
    method Attack(other: Character) returns (outcome: Outcome)
      requires Valid() && PoolReady(collider) && other != this && other.obstacle != obstacle
      modifies this, obstacle, other, other.obstacle
      modifies collider, collider.details, collider.details.overlapN, collider.details.overlapV
      modifies collider.arrays[|collider.arrays| - 1], collider.arrays[|collider.arrays| - 2]
      modifies collider.vectors[|collider.vectors| - 1]
      ensures Valid() && PoolReady(collider) && collider.vectors == old(collider.vectors)
      ensures collider.arrays == old(collider.arrays) || collider.arrays == SwapTop(old(collider.arrays))
      ensures var r := Attacked(Setting(), old(State()), old(Direction()), old(other.obstacle.payload),
                                old(other.action.blocking));
        State() == r.0 && Direction() == r.1 && outcome == r.2
      ensures other.State() ==
        if outcome == Won then Reset(other.Setting(), old(other.State()), false) else old(other.State())
    {
      if !active || !action.attacking || action.cooldown {
        return Idle;
      }
      hide Struck, Reset;
      EngageKeepsTracked(action, timers, Timer(EndAttack, AttackDuration));
      action := action.(cooldown := true);
      timers := timers + [Timer(EndAttack, AttackDuration), Timer(EndCooldown, CooldownDuration)];
      outcome := Strike(other);
    }

    /**
     * executeCharacterActions: an active player moves, turns to the
     * opponent, bounces off the obstacles, attacks and blocks; an inactive
     * one does nothing.  Short of a win, the opponent and the registry are
     * left as they were.
     */
    method ExecuteCharacterActions(other: Character) returns (outcome: Outcome)
      requires Valid() && PoolReady(collider) && other != this && other.obstacle != obstacle
      modifies this, obstacle, other, other.obstacle
      modifies collider, collider.details, collider.details.overlapN, collider.details.overlapV
      modifies collider.arrays[|collider.arrays| - 1], collider.arrays[|collider.arrays| - 2]
      modifies collider.vectors[|collider.vectors| - 1]
      ensures Valid() && PoolReady(collider) && collider.vectors == old(collider.vectors)
      ensures collider.arrays == old(collider.arrays) || collider.arrays == SwapTop(old(collider.arrays))
      ensures var r := Run(Setting(), old(State()), old(Direction()), old(SceneOf(other)));
        State() == r.0 && Direction() == r.1 && outcome == r.2
      ensures other.State() ==
        if outcome == Won then Reset(other.Setting(), old(other.State()), false) else old(other.State())
      ensures outcome != Won ==> SceneOf(other) == old(SceneOf(other))
    {
      hide Run, Moved, Turned, Collided, Fought, Reset, Payloads, Without;
      RunSteps(Setting(), State(), Direction(), SceneOf(other));
      if !active {
        return Idle;
      }
      ghost var rs, vs := collider.arrays, collider.vectors;
      ghost var listed := Without(obstacles.items, obstacle.id);
      ghost var scene := SceneOf(other);
      Travel(other.position, Payloads(listed));
      outcome := Fight(other, rs, vs);
      if outcome != Won {
        forall k | 0 <= k < |listed|
          ensures old(listed[k].payload) == listed[k].payload
        {
          if listed[k] != other.obstacle {
            assert listed[k].id != obstacle.id;
          }
        }
        PayloadsKept(listed);
      }
    }

    /** The movement half of executeCharacterActions: move, turn to the target, collide. */
    method Travel(target: Vec, ghost others: seq<Quad>)
      requires Valid() && PoolReady(collider)
      requires others == Payloads(Without(obstacles.items, obstacle.id))
      modifies this, obstacle, collider, collider.details, collider.details.overlapN, collider.details.overlapV
      modifies collider.arrays[|collider.arrays| - 1], collider.arrays[|collider.arrays| - 2]
      modifies collider.vectors[|collider.vectors| - 1]
      ensures Valid() && PoolReady(collider) && collider.vectors == old(collider.vectors)
      ensures collider.arrays == old(collider.arrays) || collider.arrays == SwapTop(old(collider.arrays))
      ensures (State(), Direction()) ==
        Collided(Setting(), Turned(Setting(), Moved(Setting(), old(State())), target), old(Direction()), others)
    {
      hide Bounce, Payloads, Without, Stepped, Accelerated, Square, Facing;
      Reposition(target);
      PayloadsKept(Without(obstacles.items, obstacle.id));
      Collide();
    }

    /** move, then turn to the target. */
    method Reposition(target: Vec)
      modifies this, obstacle
      ensures State() == Turned(Setting(), Moved(Setting(), old(State())), target)
    {
      hide Stepped, Accelerated, Square, Facing;
      Move();
      Turn(target);
    }

    /** The combat half of executeCharacterActions: attack, then block. */
    method Fight(other: Character, ghost base: seq<array<real>>, ghost pool: seq<Vector>) returns (outcome: Outcome)
      requires Valid() && PoolReady(collider) && other != this && other.obstacle != obstacle
      requires collider.vectors == pool && |base| >= 2 && (collider.arrays == base || collider.arrays == SwapTop(base))
      modifies this, obstacle, other, other.obstacle
      modifies collider, collider.details, collider.details.overlapN, collider.details.overlapV
      modifies base[|base| - 1], base[|base| - 2], pool[|pool| - 1]
      ensures Valid() && PoolReady(collider) && collider.vectors == pool
      ensures collider.arrays == base || collider.arrays == SwapTop(base)
      ensures var r := Fought(Setting(), old(State()), old(Direction()), old(other.obstacle.payload),
                              old(other.action.blocking));
        State() == r.0 && Direction() == r.1 && outcome == r.2
      ensures other.State() ==
        if outcome == Won then Reset(other.Setting(), old(other.State()), false) else old(other.State())
    {
      hide Attacked, Braced, Reset;
      ghost var rs := collider.arrays;
      ghost var r := Attacked(Setting(), State(), Direction(), other.obstacle.payload, other.action.blocking);
      SameTopTwo(rs, base);
      outcome := Attack(other);
      assert State() == r.0 && Direction() == r.1 && outcome == r.2;
      Block();
      if collider.arrays != rs && rs != base {
        SwapTopTwice(base);
      }
    }

    /**
     * onNextTick: the actions run once, then once more per skipped frame,
     * all against the scene the tick starts from (a win in the first run
     * leaves the character inactive, so later runs read nothing).
     */
    method OnNextTick(frameSkip: nat, other: Character) returns (outcomes: seq<Outcome>)
      requires Valid() && PoolReady(collider) && other != this && other.obstacle != obstacle
      modifies this, obstacle, other, other.obstacle
      modifies collider, collider.details, collider.details.overlapN, collider.details.overlapV
      modifies collider.arrays[|collider.arrays| - 1], collider.arrays[|collider.arrays| - 2]
      modifies collider.vectors[|collider.vectors| - 1]
      ensures Valid() && PoolReady(collider) && collider.vectors == old(collider.vectors)
      ensures collider.arrays == old(collider.arrays) || collider.arrays == SwapTop(old(collider.arrays))
      ensures var r := Runs(frameSkip + 1, Setting(), old(State()), old(Direction()), old(SceneOf(other)));
        State() == r.0 && Direction() == r.1 && outcomes == r.2
      ensures other.State() ==
        if outcomes[0] == Won then Reset(other.Setting(), old(other.State()), false) else old(other.State())
    {
      ghost var s0, n0, scene := State(), Direction(), SceneOf(other);
      ghost var rs, vs := collider.arrays, collider.vectors;
      var first := ExecuteCharacterActions(other);
      ghost var s1, n1 := State(), Direction();
      RunSpends(Setting(), s0, n0, scene);
      if first == Won {
        RunActs(Setting(), s0, n0, scene);
        RunsInactive(frameSkip, Setting(), s1, n1, SceneOf(other), scene);
      }
      var rest := CatchUp(frameSkip, other, rs, vs);
      outcomes := [first] + rest;
      RunsFirst(frameSkip, Setting(), s0, n0, scene);
    }

    /** The loop of onNextTick: one more run of the actions per skipped frame. */
    method CatchUp(frameSkip: nat, other: Character, ghost base: seq<array<real>>, ghost pool: seq<Vector>)
      returns (outcomes: seq<Outcome>)
      requires Valid() && PoolReady(collider) && other != this && other.obstacle != obstacle
      requires collider.vectors == pool && |base| >= 2 && (collider.arrays == base || collider.arrays == SwapTop(base))
      requires Spent(State())
      modifies this, obstacle, other, other.obstacle
      modifies collider, collider.details, collider.details.overlapN, collider.details.overlapV
      modifies base[|base| - 1], base[|base| - 2], pool[|pool| - 1]
      ensures Valid() && PoolReady(collider) && collider.vectors == pool
      ensures collider.arrays == base || collider.arrays == SwapTop(base)
      ensures var r := Runs(frameSkip, Setting(), old(State()), old(Direction()), old(SceneOf(other)));
        State() == r.0 && Direction() == r.1 && outcomes == r.2
      ensures other.State() == old(other.State())
    {
      ghost var s0, n0, scene := State(), Direction(), SceneOf(other);
      outcomes := [];
      var i := 0;
      while i < frameSkip
        invariant i <= frameSkip
        invariant Valid() && PoolReady(collider) && collider.vectors == pool
        invariant collider.arrays == base || collider.arrays == SwapTop(base)
        invariant Spent(State()) && SceneOf(other) == scene && other.State() == old(other.State())
        invariant var r := Runs(i, Setting(), s0, n0, scene);
          State() == r.0 && Direction() == r.1 && outcomes == r.2
      {
        var next := Rerun(other, base, pool);
        outcomes := outcomes + [next];
        i := i + 1;
      }
    }

    /** A later run of the actions within the same tick: nothing is left to attack or engage. */
    method Rerun(other: Character, ghost base: seq<array<real>>, ghost pool: seq<Vector>) returns (outcome: Outcome)
      requires Valid() && PoolReady(collider) && other != this && other.obstacle != obstacle
      requires collider.vectors == pool && |base| >= 2 && (collider.arrays == base || collider.arrays == SwapTop(base))
      requires Spent(State())
      modifies this, obstacle, other, other.obstacle
      modifies collider, collider.details, collider.details.overlapN, collider.details.overlapV
      modifies base[|base| - 1], base[|base| - 2], pool[|pool| - 1]
      ensures Valid() && PoolReady(collider) && collider.vectors == pool
      ensures collider.arrays == base || collider.arrays == SwapTop(base)
      ensures var r := Run(Setting(), old(State()), old(Direction()), old(SceneOf(other)));
        State() == r.0 && Direction() == r.1 && outcome == r.2
      ensures outcome == Idle && Spent(State())
      ensures other.State() == old(other.State()) && SceneOf(other) == old(SceneOf(other))
    {
      ghost var s0, n0, scene := State(), Direction(), SceneOf(other);
      ghost var rs := collider.arrays;
      SameTopTwo(rs, base);
      outcome := ExecuteCharacterActions(other);
      RunActs(Setting(), s0, n0, scene);
      RunSpends(Setting(), s0, n0, scene);
      if collider.arrays != rs && rs != base {
        SwapTopTwice(base);
      }
    }
  }
}
