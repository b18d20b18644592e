/** The App component as an object: its React state, timer references and
    pending timers are fields, and each handler updates them in place, field
    by field, in the order the handler does.  Every method is proved to move
    the object from Snapshot() to the corresponding step of the Valentine
    state machine; the constructor and the three entry points HandleYes,
    HandleNo and Elapse also keep that machine's invariant. */
module Component {
  import opened Particles
  import opened Timers
  import opened Valentine

  /** The event loop running, in scheduling order, the prune callbacks of one
      pool that are due by t.  None of them is ever cancelled; each prunes what
      the pool holds when it runs. */
  method RunDuePrunes(pool: seq<Particle>, deadlines: seq<int>, cap: nat, t: int)
    returns (pruned: seq<Particle>, pending: seq<int>)
    ensures pruned == RunPrunes(pool, deadlines, cap, t)
    ensures pending == Pending(deadlines, t)
  {
    pruned, pending := pool, [];
    var i := 0;
    while i < |deadlines|
      invariant 0 <= i <= |deadlines|
      invariant pruned == (if Due(deadlines[..i], t) then Prune(pool, cap) else pool)
      invariant pending == Pending(deadlines[..i], t)
    {
      if deadlines[i] <= t {
        PruneIdempotent(pool, cap);
        pruned := Prune(pruned, cap);
      } else {
        pending := pending + [deadlines[i]];
      }
      DueAppend(deadlines[..i], deadlines[i], t);
      assert deadlines[..i + 1] == deadlines[..i] + [deadlines[i]];
      i := i + 1;
    }
    assert deadlines[..|deadlines|] == deadlines;
  }

  class App {
    var message: Message
    var mood: Mood
    var noClickCount: int
    var yesScale: int
    var hearts: seq<Particle>
    var badEmojis: seq<Particle>
    /** Deadlines of the prune timers spawnHearts / spawnBadEmojis scheduled. */
    var heartPrunes: seq<int>
    var badPrunes: seq<int>
    /** showGif with gifTimeoutRef, and showSadGif with sadGifTimeoutRef. */
    var gif: Slot
    var sadGif: Slot
    /** The virtual clock, in milliseconds. */
    var now: nat

    function Snapshot(): State
      reads this
    {
      State(message, mood, noClickCount, yesScale, hearts, badEmojis,
            heartPrunes, badPrunes, gif, sadGif, now)
    }

    ghost predicate Valid()
      reads this
    {
      Inv(Snapshot())
    }

    /** The component after its mount effect has run. */
    constructor (rand: nat -> Draw)
      requires UnitStream(rand)
      ensures Snapshot() == Mount(rand) && Valid()
    {
      message := Blank;
      mood := Happy;
      noClickCount := 0;
      yesScale := BaseScale;
      hearts := InitialHearts(rand);
      badEmojis := [];
      heartPrunes, badPrunes := [], [];
      gif, sadGif := Hidden, Hidden;
      now := 0;
      MountInv(rand);
    }

    method SpawnHearts(n: nat, rand: nat -> Draw)
      requires UnitStream(rand)
      modifies this
      ensures Snapshot() == SpawnInto(old(Snapshot()), Hearts, n, rand)
    {
      hearts := Spawn(Hearts, hearts, n, rand);
      heartPrunes := heartPrunes + [now + PruneDelay(Hearts)];
    }

    method SpawnBadEmojis(n: nat, rand: nat -> Draw)
      requires UnitStream(rand)
      modifies this
      ensures Snapshot() == SpawnInto(old(Snapshot()), BadEmojis, n, rand)
    {
      badEmojis := Spawn(BadEmojis, badEmojis, n, rand);
      badPrunes := badPrunes + [now + PruneDelay(BadEmojis)];
    }

    /** handleYes, as one atomic step that keeps the invariant. */
    method HandleYes(rand: nat -> Draw)
      requires Valid() && UnitStream(rand)
      modifies this
      ensures Snapshot() == YesStep(old(Snapshot()), rand)
      ensures Valid()
    {
      ghost var before := Snapshot();
      YesUpdates(rand);
      YesInv(before, rand);
    }

    /** The state updates handleYes makes, in its order. */
    method YesUpdates(rand: nat -> Draw)
      requires UnitStream(rand)
      modifies this
      ensures Snapshot() == YesStep(old(Snapshot()), rand)
    {
      message := YesMessage;
      mood := Happy;
      badEmojis := [];
      SpawnHearts(YesHeartBurst, rand);
      noClickCount := 0;
      yesScale := BaseScale;
      sadGif := Dismiss(sadGif);
      gif := Show(gif, now, CelebrationMs);
    }

    /** handleNo, as one atomic step that keeps the invariant. */
    method HandleNo(rand: nat -> Draw)
      requires Valid() && UnitStream(rand)
      modifies this
      ensures Snapshot() == NoStep(old(Snapshot()), rand)
      ensures Valid()
    {
      ghost var before := Snapshot();
      NoUpdates(rand);
      NoInv(before, rand);
    }

    /** The state updates handleNo makes, in its order: grow the Yes button,
        then the branch on the new counter value. */
    method NoUpdates(rand: nat -> Draw)
      requires UnitStream(rand)
      modifies this
      ensures Snapshot() == NoStep(old(Snapshot()), rand)
    {
      ghost var before := Snapshot();
      var next := noClickCount + 1;
      yesScale := Grow(yesScale);
      if next == 1 {
        message := Misclick;
      } else if next == 2 {
        message := Funny;
      } else if next == 3 {
        message := ForReal;
        SpawnBadEmojis(ThirdNoBadBurst, rand);
      } else {
        message := SadMessage;
        mood := Sad;
        hearts := [];
        gif := Dismiss(gif);
        SpawnBadEmojis(TerminalBadBurst, rand);
        sadGif := Show(sadGif, now, SadOverlayMs);
        next := 0;
      }
      noClickCount := next;
      SpawnNone(BadEmojis, before.badEmojis, rand);
    }

    /** The clock moves on by dt and every timer due by then runs. */
    method Elapse(dt: nat)
      requires Valid()
      modifies this
      ensures Snapshot() == ElapseStep(old(Snapshot()), dt)
      ensures Valid()
    {
      ghost var before := Snapshot();
      RunDueTimers(dt);
      ElapseInv(before, dt);
    }

    /** The timer phase of the event loop: the prune callbacks of both pools
        and the two overlay hides that are due by now + dt run, and the clock
        reads now + dt. */
    method RunDueTimers(dt: nat)
      modifies this
      ensures Snapshot() == ElapseStep(old(Snapshot()), dt)
    {
      ghost var after := ElapseStep(Snapshot(), dt);
      var t := now + dt;
      var h, hp := RunDuePrunes(hearts, heartPrunes, Cap(Hearts), t);
      var b, bp := RunDuePrunes(badEmojis, badPrunes, Cap(BadEmojis), t);
      hearts, heartPrunes, badEmojis, badPrunes := h, hp, b, bp;
      gif, sadGif := Fire(gif, t), Fire(sadGif, t);
      now := t;
      assert hearts == after.hearts && badEmojis == after.badEmojis;
      assert gif == after.celebration && sadGif == after.sadOverlay;
    }
  }
}
