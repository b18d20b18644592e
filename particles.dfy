/** The two decorative particle pools of the greeting card: floating hearts and
    falling "bad" emojis.  A pool is an ordered sequence of particles, oldest
    first; it grows by bursts (spawn), is cut back to its most recent entries
    by a deferred prune, and can be cleared.  Math.random is not modelled: the
    draws a particle is built from are passed in. */
module Particles {

  /** Which of the two pools. */
  datatype Kind = Hearts | BadEmojis

  /** The Math.random results consumed by one makeHeart / makeBadEmoji call,
      in the order the calls are made.  makeHeart never reads `pick`. */
  datatype Draw = Draw(left: real, top: real, dur: real, delay: real, scale: real, pick: real)

  /** One on-screen particle; the two constructors are the two record types. */
  datatype Particle =
    | Heart(id: nat, left: real, top: real, dur: real, delay: real, scale: real, sizePx: int)
    | BadEmoji(id: nat, left: real, top: real, dur: real, delay: real, scale: real, sizePx: int,
               emoji: string)

  predicate Unit(r: real) { 0.0 <= r < 1.0 }

  /** Every value in the draw lies where Math.random puts it, in [0, 1). */
  predicate UnitDraw(d: Draw) {
    Unit(d.left) && Unit(d.top) && Unit(d.dur) && Unit(d.delay) && Unit(d.scale) && Unit(d.pick)
  }

  /** A stream of draws Math.random could have produced. */
  ghost predicate UnitStream(rand: nat -> Draw) {
    forall i: nat :: UnitDraw(rand(i))
  }

  function KindOf(p: Particle): Kind {
    if p.Heart? then Hearts else BadEmojis
  }

  /** Largest number of entries a prune keeps. */
  function Cap(kind: Kind): nat {
    match kind
    case Hearts => 24
    case BadEmojis => 40
  }

  /** Milliseconds between a spawn and the prune it schedules. */
  function PruneDelay(kind: Kind): nat {
    match kind
    case Hearts => 16000
    case BadEmojis => 18000
  }

  function Min(a: int, b: int): int { if a <= b then a else b }
  function Max(a: int, b: int): int { if a <= b then b else a }

  /** Math.round on exact reals: the nearest integer, halves rounded up. */
  function Round(x: real): (n: int)
    ensures x - 0.5 < n as real <= x + 0.5
  {
    (x + 0.5).Floor
  }

  /** The nine symbols a bad emoji is drawn from. */
  const BadPool: seq<string> := [
    "\U{1F327}\U{FE0F}", "\U{26C8}\U{FE0F}", "\U{1F622}", "\U{1F61E}", "\U{1F629}",
    "\U{1F494}", "\U{1F614}", "\U{2614}\U{FE0F}", "\U{1F63F}"]

  /** Attribute ranges promised for a heart: position in [2, 98), duration in
      [6, 14) s, delay in [0, 2.5) s, scale in [0.9, 1.25), pixel size the
      rounded scale times 28. */
  predicate HeartInBounds(p: Particle) {
    && p.Heart?
    && 2.0 <= p.left < 98.0 && 2.0 <= p.top < 98.0
    && 6.0 <= p.dur < 14.0 && 0.0 <= p.delay < 2.5
    && 0.9 <= p.scale < 1.25
    && p.sizePx == Round(p.scale * 28.0) && 25 <= p.sizePx <= 35
  }

  /** Attribute ranges promised for a bad emoji: position in [2, 98), duration
      in [5, 15) s, delay in [0, 2.5) s, scale in [0.75, 1.35), pixel size the
      rounded scale times 26, symbol from the palette. */
  predicate BadEmojiInBounds(p: Particle) {
    && p.BadEmoji?
    && 2.0 <= p.left < 98.0 && 2.0 <= p.top < 98.0
    && 5.0 <= p.dur < 15.0 && 0.0 <= p.delay < 2.5
    && 0.75 <= p.scale < 1.35
    && p.sizePx == Round(p.scale * 26.0) && 20 <= p.sizePx <= 35
    && p.emoji in BadPool
  }

  predicate InBounds(p: Particle) {
    match p
    case Heart(_, _, _, _, _, _, _) => HeartInBounds(p)
    case BadEmoji(_, _, _, _, _, _, _, _) => BadEmojiInBounds(p)
  }

  /** makeHeart: a heart with the given id, attributes scaled from the draw. */
  function MakeHeart(id: nat, d: Draw): (h: Particle)
    requires UnitDraw(d)
    ensures h.Heart? && h.id == id
    ensures HeartInBounds(h)
  {
    var scale := 0.9 + d.scale * 0.35;
    Heart(id, 2.0 + d.left * 96.0, 2.0 + d.top * 96.0, 6.0 + d.dur * 8.0, d.delay * 2.5,
          scale, Round(scale * 28.0))
  }

  /** The palette index floor(r * 9) of a draw r in [0, 1). */
  function PaletteIndex(r: real): (k: int)
    requires Unit(r)
    ensures 0 <= k < |BadPool|
  {
    (r * (|BadPool| as real)).Floor
  }

  /** makeBadEmoji: a bad emoji with the given id, attributes scaled from the draw. */
  function MakeBadEmoji(id: nat, d: Draw): (b: Particle)
    requires UnitDraw(d)
    ensures b.BadEmoji? && b.id == id
    ensures BadEmojiInBounds(b)
  {
    var scale := 0.75 + d.scale * 0.6;
    BadEmoji(id, 2.0 + d.left * 96.0, 2.0 + d.top * 96.0, 5.0 + d.dur * 10.0, d.delay * 2.5,
             scale, Round(scale * 26.0), BadPool[PaletteIndex(d.pick)])
  }

  function Make(kind: Kind, id: nat, d: Draw): (p: Particle)
    requires UnitDraw(d)
    ensures KindOf(p) == kind && p.id == id && InBounds(p)
  {
    match kind
    case Hearts => MakeHeart(id, d)
    case BadEmojis => MakeBadEmoji(id, d)
  }

  /** Every entry belongs to the given pool and respects its attribute bounds. */
  predicate WellFormed(kind: Kind, pool: seq<Particle>) {
    forall i :: 0 <= i < |pool| ==> KindOf(pool[i]) == kind && InBounds(pool[i])
  }

  /** Ids strictly increase from the oldest entry to the newest. */
  predicate Increasing(pool: seq<Particle>) {
    forall i, j :: 0 <= i < j < |pool| ==> pool[i].id < pool[j].id
  }

  /** The largest id in the pool, or 0 for an empty pool. */
  function MaxId(pool: seq<Particle>): (m: nat)
    ensures forall i :: 0 <= i < |pool| ==> pool[i].id <= m
    ensures |pool| > 0 ==> exists i :: 0 <= i < |pool| && pool[i].id == m
    ensures |pool| == 0 ==> m == 0
  {
    if |pool| == 0 then 0
    else if |pool| == 1 then pool[0].id
    else
      var front := MaxId(pool[..|pool| - 1]);
      assert forall i :: 0 <= i < |pool| - 1 ==> pool[..|pool| - 1][i] == pool[i];
      Max(front, pool[|pool| - 1].id)
  }

  /** spawnHearts / spawnBadEmojis, the pool update: append n new particles
      whose ids continue from the largest existing id. */
  function Spawn(kind: Kind, prev: seq<Particle>, n: nat, rand: nat -> Draw): (r: seq<Particle>)
    requires UnitStream(rand)
    ensures |r| == |prev| + n && r[..|prev|] == prev
  {
    prev + seq(n, i requires 0 <= i < n => Make(kind, MaxId(prev) + i + 1, rand(i)))
  }

  /** The deferred prune: keep the last `cap` entries, in order. */
  function Prune(pool: seq<Particle>, cap: nat): (r: seq<Particle>)
    ensures |r| == Min(|pool|, cap)
    ensures r == pool[|pool| - |r|..]
  {
    pool[Max(0, |pool| - cap)..]
  }

  /** The startup burst: 18 hearts with ids 0 to 17. */
  function InitialHearts(rand: nat -> Draw): (r: seq<Particle>)
    requires UnitStream(rand)
    ensures |r| == 18
    ensures forall i :: 0 <= i < |r| ==> r[i].id == i
    ensures WellFormed(Hearts, r)
  {
    seq(18, i requires 0 <= i < 18 => MakeHeart(i, rand(i)))
  }

  // ---------------------------------------------------------------------
  // Properties of the pool operations

  /** In an increasing pool the largest id is the newest entry's. */
  lemma MaxIdIsLast(pool: seq<Particle>)
    requires Increasing(pool) && |pool| > 0
    ensures MaxId(pool) == pool[|pool| - 1].id
  {
  }

  /** The spawned particles are of the pool's kind and within bounds, and
      their ids count on from the largest id already in the pool, so each
      is larger than every older id. */
  lemma SpawnFresh(kind: Kind, prev: seq<Particle>, n: nat, rand: nat -> Draw)
    requires UnitStream(rand)
    ensures var r := Spawn(kind, prev, n, rand);
            && (forall j :: |prev| <= j < |r| ==> r[j].id == MaxId(prev) + 1 + (j - |prev|))
            && (forall i, j :: 0 <= i < |prev| <= j < |r| ==> r[i].id < r[j].id)
            && (forall j :: |prev| <= j < |r| ==> KindOf(r[j]) == kind && InBounds(r[j]))
  {
  }

  /** Spawning keeps ids strictly increasing along the pool. */
  lemma SpawnKeepsIncreasing(kind: Kind, prev: seq<Particle>, n: nat, rand: nat -> Draw)
    requires UnitStream(rand) && Increasing(prev)
    ensures Increasing(Spawn(kind, prev, n, rand))
  {
    var r := Spawn(kind, prev, n, rand);
    SpawnFresh(kind, prev, n, rand);
    forall i, j | 0 <= i < j < |r| ensures r[i].id < r[j].id {
      if j < |prev| {
        assert r[i] == prev[i] && r[j] == prev[j];
      }
    }
  }

  /** Spawning keeps every entry of the pool's kind and within its bounds. */
  lemma SpawnKeepsWellFormed(kind: Kind, prev: seq<Particle>, n: nat, rand: nat -> Draw)
    requires UnitStream(rand) && WellFormed(kind, prev)
    ensures WellFormed(kind, Spawn(kind, prev, n, rand))
  {
    var r := Spawn(kind, prev, n, rand);
    SpawnFresh(kind, prev, n, rand);
    forall i | 0 <= i < |prev| ensures r[i] == prev[i] {
      assert r[..|prev|][i] == r[i];
    }
  }

  /** Spawning zero particles leaves the pool as it was. */
  lemma SpawnNone(kind: Kind, prev: seq<Particle>, rand: nat -> Draw)
    requires UnitStream(rand)
    ensures Spawn(kind, prev, 0, rand) == prev
  {
  }

  /** Into an empty pool (after a clear) ids restart at 1, so an id that was
      in use before the clear can be handed out again. */
  lemma SpawnAfterClear(kind: Kind, n: nat, rand: nat -> Draw)
    requires UnitStream(rand)
    ensures forall j :: 0 <= j < n ==> Spawn(kind, [], n, rand)[j].id == j + 1
  {
    SpawnFresh(kind, [], n, rand);
  }

  /** A prune never leaves more than the cap, and keeps the newest entries. */
  lemma PruneBounded(pool: seq<Particle>, cap: nat)
    ensures |Prune(pool, cap)| <= cap
    ensures |pool| > 0 && cap > 0 ==> Prune(pool, cap)[|Prune(pool, cap)| - 1] == pool[|pool| - 1]
  {
  }

  /** A pool already within the cap is left alone. */
  lemma PruneWithinCap(pool: seq<Particle>, cap: nat)
    requires |pool| <= cap
    ensures Prune(pool, cap) == pool
  {
  }

  /** Pruning twice is pruning once. */
  lemma PruneIdempotent(pool: seq<Particle>, cap: nat)
    ensures Prune(Prune(pool, cap), cap) == Prune(pool, cap)
  {
  }

  /** A prune keeps ids increasing and entries well formed. */
  lemma PruneKeepsInvariants(kind: Kind, pool: seq<Particle>, cap: nat)
    ensures Increasing(pool) ==> Increasing(Prune(pool, cap))
    ensures WellFormed(kind, pool) ==> WellFormed(kind, Prune(pool, cap))
  {
    var r := Prune(pool, cap);
    var k := |pool| - |r|;
    forall i | 0 <= i < |r| ensures r[i] == pool[k + i] { }
  }

  /** The startup hearts are increasing, and the first later spawn continues at 18. */
  lemma InitialHeartsIncreasing(rand: nat -> Draw, rand': nat -> Draw, n: nat)
    requires UnitStream(rand) && UnitStream(rand')
    ensures Increasing(InitialHearts(rand))
    ensures forall j :: 18 <= j < 18 + n ==> Spawn(Hearts, InitialHearts(rand), n, rand')[j].id == j
  {
    MaxIdIsLast(InitialHearts(rand));
    SpawnFresh(Hearts, InitialHearts(rand), n, rand');
  }

  /** Each pool's prune delay outlasts the longest animation duration it can
      draw; for a bad emoji it outlasts the start delay plus the duration. */
  lemma PruneOutlastsDuration(p: Particle)
    requires InBounds(p)
    ensures p.dur * 1000.0 < PruneDelay(KindOf(p)) as real
    ensures KindOf(p) == BadEmojis ==> (p.delay + p.dur) * 1000.0 < PruneDelay(BadEmojis) as real
  {
  }

  /** For a heart it does not: start delay plus duration can exceed the 16 s
      after which its burst's prune runs. */
  lemma HeartCanOutlivePrune()
    ensures var h := MakeHeart(0, Draw(0.0, 0.0, 0.99, 0.99, 0.0, 0.0));
            (h.delay + h.dur) * 1000.0 > PruneDelay(Hearts) as real
  {
    var h := MakeHeart(0, Draw(0.0, 0.0, 0.99, 0.99, 0.0, 0.0));
    assert h.delay + h.dur == 16.395;
  }
}
