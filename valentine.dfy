/** The state of the App component and its three kinds of transition: a click
    on "Yes", a click on "No", and the virtual clock moving on so that timers
    fire.  Each handler is one atomic step. */
module Valentine {
  import opened Particles
  import opened Timers

  datatype Mood = Happy | Sad

  /** The line under the question.  The component keeps it as a string
      that only ever holds one of these texts. */
  datatype Message = Blank | Misclick | Funny | ForReal | SadMessage | YesMessage

  function Text(m: Message): string {
    match m
    case Blank => ""
    case Misclick => "Hum seems like you misclicked"
    case Funny => "Oh I see haha, very funny"
    case ForReal => "are you really for real ??? \U{1F615}"
    case SadMessage => "Oh that's sad...\U{1F494}"
    case YesMessage => "Yes! \U{1F496} I'll be yours! \U{2728}"
  }

  /** No two messages read the same, so keeping the message rather than
      its text loses nothing. */
  lemma TextInjective(a: Message, b: Message)
    ensures Text(a) == Text(b) <==> a == b
  {
  }

  /** Particles spawned at startup, by "Yes", by the third "No" and by the terminal "No". */
  const InitialHeartCount: nat := 18
  const YesHeartBurst: nat := 85
  const ThirdNoBadBurst: nat := 20
  const TerminalBadBurst: nat := 40

  /** How long each overlay stays up, in milliseconds. */
  const CelebrationMs: nat := 12000
  const SadOverlayMs: nat := 29000

  /** The Yes button's growth factor, in hundredths. */
  const BaseScale: int := 100
  const ScaleStep: int := 12
  const MaxScale: int := 180

  /** Everything the component keeps: React state, the timer references, the
      pending prune timers of both pools, and the virtual clock. */
  datatype State = State(
    message: Message,
    mood: Mood,
    noClicks: int,
    yesScale: int,
    hearts: seq<Particle>,
    badEmojis: seq<Particle>,
    heartPrunes: seq<int>,
    badPrunes: seq<int>,
    celebration: Slot,
    sadOverlay: Slot,
    now: nat)

  /** One "No" click's growth of the Yes button: min(1.8, s + 0.12). */
  function Grow(s: int): (r: int)
    ensures r <= MaxScale
    ensures s <= MaxScale ==> s <= r
    ensures s + ScaleStep <= MaxScale ==> r == s + ScaleStep
    ensures s + ScaleStep >= MaxScale ==> r == MaxScale
  {
    Min(MaxScale, s + ScaleStep)
  }

  /** The step after `prev` is the terminal one unless it is step 1, 2 or 3. */
  predicate Terminal(prev: int) {
    !(1 <= prev + 1 <= 3)
  }

  /** The message a "No" click sets, by the counter value it computes. */
  function StepMessage(next: int): Message {
    if next == 1 then Misclick
    else if next == 2 then Funny
    else if next == 3 then ForReal
    else SadMessage
  }

  /** How many bad emojis a "No" click after counter value `prev` spawns. */
  function BadBurst(prev: int): nat {
    if prev + 1 == 3 then ThirdNoBadBurst
    else if Terminal(prev) then TerminalBadBurst
    else 0
  }

  /** The state after the mount effect: empty message, happy, 18 hearts with
      ids 0 to 17 and no prune timer, nothing else. */
  function Mount(rand: nat -> Draw): (s: State)
    requires UnitStream(rand)
    ensures s.hearts == InitialHearts(rand) && |s.hearts| == InitialHeartCount
    ensures s.badEmojis == [] && s.heartPrunes == [] && s.badPrunes == []
    ensures s.message == Blank && s.mood == Happy
    ensures s.noClicks == 0 && s.yesScale == BaseScale
    ensures s.celebration == Hidden && s.sadOverlay == Hidden && s.now == 0
  {
    State(Blank, Happy, 0, BaseScale, InitialHearts(rand), [], [], [], Hidden, Hidden, 0)
  }

  /** spawnHearts / spawnBadEmojis: append n particles to the chosen pool and
      schedule that pool's prune, PruneDelay from now. */
  function SpawnInto(s: State, kind: Kind, n: nat, rand: nat -> Draw): (r: State)
    requires UnitStream(rand)
    ensures kind == Hearts ==> r == s.(hearts := Spawn(Hearts, s.hearts, n, rand),
                                       heartPrunes := s.heartPrunes + [s.now + PruneDelay(Hearts)])
    ensures kind == BadEmojis ==> r == s.(badEmojis := Spawn(BadEmojis, s.badEmojis, n, rand),
                                          badPrunes := s.badPrunes + [s.now + PruneDelay(BadEmojis)])
  {
    match kind
    case Hearts =>
      s.(hearts := Spawn(Hearts, s.hearts, n, rand), heartPrunes := s.heartPrunes + [s.now + 16000])
    case BadEmojis =>
      s.(badEmojis := Spawn(BadEmojis, s.badEmojis, n, rand), badPrunes := s.badPrunes + [s.now + 18000])
  }

  /** handleYes. */
  function YesStep(s: State, rand: nat -> Draw): (r: State)
    requires UnitStream(rand)
    ensures r.message == YesMessage && r.mood == Happy
    ensures r.badEmojis == [] && r.badPrunes == s.badPrunes
    ensures r.hearts == Spawn(Hearts, s.hearts, YesHeartBurst, rand)
    ensures r.heartPrunes == s.heartPrunes + [s.now + PruneDelay(Hearts)]
    ensures r.noClicks == 0 && r.yesScale == BaseScale
    ensures r.sadOverlay == Hidden
    ensures r.celebration == Slot(true, Some(s.now + CelebrationMs))
    ensures r.now == s.now
  {
    var s1 := s.(message := YesMessage, mood := Happy, badEmojis := []);
    var s2 := SpawnInto(s1, Hearts, YesHeartBurst, rand);
    var s3 := s2.(noClicks := 0, yesScale := BaseScale, sadOverlay := Dismiss(s2.sadOverlay));
    s3.(celebration := Show(s3.celebration, s3.now, CelebrationMs))
  }

  /** handleNo. */
  function NoStep(s: State, rand: nat -> Draw): (r: State)
    requires UnitStream(rand)
    ensures r.yesScale == Grow(s.yesScale)
    ensures 0 <= r.noClicks <= 3
    ensures r.noClicks == (if Terminal(s.noClicks) then 0 else s.noClicks + 1)
    ensures r.message == StepMessage(s.noClicks + 1)
    ensures r.badEmojis == Spawn(BadEmojis, s.badEmojis, BadBurst(s.noClicks), rand)
    ensures r.badPrunes == s.badPrunes + (if BadBurst(s.noClicks) > 0 then [s.now + PruneDelay(BadEmojis)] else [])
    ensures r.heartPrunes == s.heartPrunes && r.now == s.now
    // only the terminal step touches mood, hearts and overlays
    ensures !Terminal(s.noClicks) ==>
      r.mood == s.mood && r.hearts == s.hearts &&
      r.celebration == s.celebration && r.sadOverlay == s.sadOverlay
    ensures Terminal(s.noClicks) ==>
      r.mood == Sad && r.hearts == [] && r.celebration == Hidden &&
      r.sadOverlay == Slot(true, Some(s.now + SadOverlayMs))
  {
    var next := s.noClicks + 1;
    var s1 := s.(yesScale := Grow(s.yesScale));
    if next == 1 then
      SpawnNone(BadEmojis, s.badEmojis, rand);
      s1.(message := Misclick, noClicks := next)
    else if next == 2 then
      SpawnNone(BadEmojis, s.badEmojis, rand);
      s1.(message := Funny, noClicks := next)
    else if next == 3 then
      SpawnInto(s1.(message := ForReal), BadEmojis, ThirdNoBadBurst, rand).(noClicks := next)
    else
      var s2 := s1.(message := SadMessage, mood := Sad, hearts := [],
                    celebration := Dismiss(s1.celebration));
      var s3 := SpawnInto(s2, BadEmojis, TerminalBadBurst, rand);
      s3.(sadOverlay := Show(s3.sadOverlay, s3.now, SadOverlayMs), noClicks := 0)
  }

  /** One pool's prune callbacks due by t, run back to back on what the pool
      holds: as pruning is idempotent, that is a single prune if any is due. */
  function RunPrunes(pool: seq<Particle>, ds: seq<int>, cap: nat, t: int): seq<Particle> {
    if Due(ds, t) then Prune(pool, cap) else pool
  }

  /** The clock moves on by dt and every timer due by then runs: the prune
      callbacks of both pools and the overlay hides. */
  function ElapseStep(s: State, dt: nat): (r: State)
    ensures r.now == s.now + dt
    ensures r.message == s.message && r.mood == s.mood
    ensures r.noClicks == s.noClicks && r.yesScale == s.yesScale
  {
    var t := s.now + dt;
    s.(now := t,
       hearts := RunPrunes(s.hearts, s.heartPrunes, Cap(Hearts), t),
       heartPrunes := Pending(s.heartPrunes, t),
       badEmojis := RunPrunes(s.badEmojis, s.badPrunes, Cap(BadEmojis), t),
       badPrunes := Pending(s.badPrunes, t),
       celebration := Fire(s.celebration, t),
       sadOverlay := Fire(s.sadOverlay, t))
  }

  // ---------------------------------------------------------------------
  // The invariant every reachable state keeps

  predicate DeadlinesAhead(ds: seq<int>, now: int, delay: nat) {
    forall i :: 0 <= i < |ds| ==> now < ds[i] <= now + delay
  }

  /** The message shown is the one the counter's step set. */
  predicate MessageMatchesCounter(s: State) {
    && (s.noClicks == 0 ==> s.message in {Blank, YesMessage, SadMessage})
    && (1 <= s.noClicks <= 3 ==> s.message == StepMessage(s.noClicks))
  }

  ghost predicate Inv(s: State) {
    && 0 <= s.noClicks <= 3
    && BaseScale <= s.yesScale <= MaxScale
    && MessageMatchesCounter(s)
    && Increasing(s.hearts) && WellFormed(Hearts, s.hearts)
    && Increasing(s.badEmojis) && WellFormed(BadEmojis, s.badEmojis)
    && DeadlinesAhead(s.heartPrunes, s.now, PruneDelay(Hearts))
    && DeadlinesAhead(s.badPrunes, s.now, PruneDelay(BadEmojis))
    && SlotConsistent(s.celebration, s.now) && SlotConsistent(s.sadOverlay, s.now)
    // each overlay is only ever up in its own mood, and a sad card has no hearts
    && (s.celebration.visible ==> s.mood == Happy)
    && (s.sadOverlay.visible ==> s.mood == Sad)
    && (s.mood == Sad ==> s.hearts == [])
  }

  lemma MountInv(rand: nat -> Draw)
    requires UnitStream(rand)
    ensures Inv(Mount(rand))
  {
    InitialHeartsIncreasing(rand, rand, 0);
  }

  lemma SpawnDeadlines(ds: seq<int>, now: nat, delay: nat)
    requires DeadlinesAhead(ds, now, delay) && delay > 0
    ensures DeadlinesAhead(ds + [now + delay], now, delay)
  {
  }

  lemma {:induction false} YesInv(s: State, rand: nat -> Draw)
    requires UnitStream(rand) && Inv(s)
    ensures Inv(YesStep(s, rand))
  {
    SpawnKeepsIncreasing(Hearts, s.hearts, YesHeartBurst, rand);
    SpawnKeepsWellFormed(Hearts, s.hearts, YesHeartBurst, rand);
    SpawnDeadlines(s.heartPrunes, s.now, PruneDelay(Hearts));
  }

  lemma {:induction false} NoInv(s: State, rand: nat -> Draw)
    requires UnitStream(rand) && Inv(s)
    ensures Inv(NoStep(s, rand))
  {
    var n := BadBurst(s.noClicks);
    SpawnKeepsIncreasing(BadEmojis, s.badEmojis, n, rand);
    SpawnKeepsWellFormed(BadEmojis, s.badEmojis, n, rand);
    SpawnDeadlines(s.badPrunes, s.now, PruneDelay(BadEmojis));
  }

  lemma PendingDeadlines(ds: seq<int>, now: nat, dt: nat, delay: nat)
    requires DeadlinesAhead(ds, now, delay)
    ensures DeadlinesAhead(Pending(ds, now + dt), now + dt, delay)
  {
    var r := Pending(ds, now + dt);
    PendingAfter(ds, now + dt);
    forall i | 0 <= i < |r| ensures now + dt < r[i] <= now + dt + delay {
      var j :| 0 <= j < |ds| && ds[j] == r[i];
    }
  }

  lemma {:induction false} ElapseInv(s: State, dt: nat)
    requires Inv(s)
    ensures Inv(ElapseStep(s, dt))
  {
    var t := s.now + dt;
    PruneKeepsInvariants(Hearts, s.hearts, Cap(Hearts));
    PruneKeepsInvariants(BadEmojis, s.badEmojis, Cap(BadEmojis));
    PendingDeadlines(s.heartPrunes, s.now, dt, PruneDelay(Hearts));
    PendingDeadlines(s.badPrunes, s.now, dt, PruneDelay(BadEmojis));
    SlotOperationsConsistent(s.celebration, s.now, 0, t);
    SlotOperationsConsistent(s.sadOverlay, s.now, 0, t);
  }

  /** The render guards `showGif && mood === 'happy'` and `showSadGif &&
      mood === 'sad'` add nothing to the flags in a reachable state. */
  lemma OverlayGuardsFollowFlags(s: State)
    requires Inv(s)
    ensures (s.celebration.visible && s.mood == Happy) == s.celebration.visible
    ensures (s.sadOverlay.visible && s.mood == Sad) == s.sadOverlay.visible
    ensures !(s.celebration.visible && s.sadOverlay.visible)
  {
  }

  /** Once a pool's prune timers due by t have run, the pool is its newest
      `cap` entries if any of them was due and unchanged otherwise, and none
      due by t is left pending. */
  lemma RunPrunesToCap(pool: seq<Particle>, ds: seq<int>, cap: nat, t: int)
    ensures Due(ds, t) ==> RunPrunes(pool, ds, cap, t) == Prune(pool, cap)
    ensures Due(ds, t) ==> |RunPrunes(pool, ds, cap, t)| <= cap
    ensures !Due(ds, t) ==> RunPrunes(pool, ds, cap, t) == pool
    ensures !Due(Pending(ds, t), t)
  {
    PendingNotDue(ds, t);
  }

  /** After the clock moves on, each pool whose prune timer fired is the
      newest entries of the old pool, within its cap, a pool with nothing due
      is unchanged, and no timer due by the new time is left pending. */
  lemma ElapsePrunesToCap(s: State, dt: nat)
    ensures ElapseStep(s, dt).hearts ==
            (if Due(s.heartPrunes, s.now + dt) then Prune(s.hearts, Cap(Hearts)) else s.hearts)
    ensures ElapseStep(s, dt).badEmojis ==
            (if Due(s.badPrunes, s.now + dt) then Prune(s.badEmojis, Cap(BadEmojis)) else s.badEmojis)
    ensures Due(s.heartPrunes, s.now + dt) ==> |ElapseStep(s, dt).hearts| <= Cap(Hearts)
    ensures Due(s.badPrunes, s.now + dt) ==> |ElapseStep(s, dt).badEmojis| <= Cap(BadEmojis)
    ensures !Due(ElapseStep(s, dt).heartPrunes, s.now + dt) && !Due(ElapseStep(s, dt).badPrunes, s.now + dt)
  {
    var t := s.now + dt;
    RunPrunesToCap(s.hearts, s.heartPrunes, Cap(Hearts), t);
    RunPrunesToCap(s.badEmojis, s.badPrunes, Cap(BadEmojis), t);
  }

  /** After the clock moves on, exactly the prune deadlines after the new
      time stay pending, and each overlay whose hide deadline was reached is
      hidden with no timer left, the others unchanged. */
  lemma ElapseFiresTimers(s: State, dt: nat)
    ensures ElapseStep(s, dt).heartPrunes == Pending(s.heartPrunes, s.now + dt)
    ensures ElapseStep(s, dt).badPrunes == Pending(s.badPrunes, s.now + dt)
    ensures ElapseStep(s, dt).celebration == Fire(s.celebration, s.now + dt)
    ensures ElapseStep(s, dt).sadOverlay == Fire(s.sadOverlay, s.now + dt)
  {
  }

  /** A prune cuts the whole pool, whichever burst scheduled it: when a heart
      prune from before a "Yes" falls due less than 16 s after it, the 85
      hearts of that "Yes" are cut to the newest 24 while their own prune is
      still pending. */
  lemma EarlierPruneCutsLaterBurst(s: State, rand: nat -> Draw, dt: nat)
    requires UnitStream(rand)
    requires Due(s.heartPrunes, s.now + dt) && dt < PruneDelay(Hearts)
    ensures var y := YesStep(s, rand);
            var r := ElapseStep(y, dt);
            && |y.hearts| == |s.hearts| + YesHeartBurst
            && r.hearts == Prune(y.hearts, Cap(Hearts))
            && |r.hearts| == Cap(Hearts)
            && s.now + PruneDelay(Hearts) in r.heartPrunes
  {
    var y := YesStep(s, rand);
    var d := s.now + PruneDelay(Hearts);
    assert y.now == s.now && y.heartPrunes == s.heartPrunes + [d];
    DueAppend(s.heartPrunes, d, s.now + dt);
    ElapsePrunesToCap(y, dt);
    ElapseFiresTimers(y, dt);
  }

  // ---------------------------------------------------------------------
  // Runs of "No" clicks

  /** What the escalation of "No" clicks reads and writes, apart from the
      pools and the overlays. */
  datatype Stage = Stage(message: Message, mood: Mood, noClicks: int, yesScale: int)

  function StageOf(s: State): Stage {
    Stage(s.message, s.mood, s.noClicks, s.yesScale)
  }

  /** One "No" click seen on the stage alone: the step's message, sad on
      the terminal step, the counter on by one or reset, the factor grown. */
  function NoStage(g: Stage): Stage {
    var last := Terminal(g.noClicks);
    Stage(StepMessage(g.noClicks + 1),
          if last then Sad else g.mood,
          if last then 0 else g.noClicks + 1,
          Grow(g.yesScale))
  }

  /** The stage after a "No" click depends on the stage before it only. */
  lemma NoStepStage(s: State, rand: nat -> Draw)
    requires UnitStream(rand)
    ensures StageOf(NoStep(s, rand)) == NoStage(StageOf(s))
  {
  }

  /** k "No" clicks in a row; click j draws from rands(j). */
  function NoClicks(s: State, k: nat, rands: nat -> nat -> Draw): State
    requires forall j: nat :: UnitStream(rands(j))
  {
    if k == 0 then s else NoStep(NoClicks(s, k - 1, rands), rands(k - 1))
  }

  /** k "No" clicks on the stage alone. */
  function Stages(g: Stage, k: nat): Stage {
    if k == 0 then g else NoStage(Stages(g, k - 1))
  }

  lemma {:induction false} NoClicksStages(s: State, k: nat, rands: nat -> nat -> Draw)
    requires forall j: nat :: UnitStream(rands(j))
    ensures StageOf(NoClicks(s, k, rands)) == Stages(StageOf(s), k)
  {
    if k > 0 {
      NoClicksStages(s, k - 1, rands);
      NoStepStage(NoClicks(s, k - 1, rands), rands(k - 1));
    }
  }

  lemma {:induction false} StagesScale(g: Stage, k: nat)
    ensures k > 0 ==> Stages(g, k).yesScale == Min(MaxScale, g.yesScale + ScaleStep * k)
  {
    if k > 1 {
      StagesScale(g, k - 1);
    }
  }

  /** Counting on by one modulo 4. */
  lemma SuccMod4(a: nat)
    ensures (a + 1) % 4 == (if a % 4 == 3 then 0 else a % 4 + 1)
  {
  }

  lemma {:induction false} StagesCounter(g: Stage, k: nat)
    requires 0 <= g.noClicks <= 3
    ensures Stages(g, k).noClicks == (g.noClicks + k) % 4
  {
    if k > 0 {
      StagesCounter(g, k - 1);
      SuccMod4(g.noClicks + k - 1);
    }
  }

  lemma {:induction false} StagesFromReset(g: Stage, k: nat)
    requires g.noClicks == 0
    ensures k > 0 ==> Stages(g, k).message == StepMessage((k - 1) % 4 + 1)
    ensures Stages(g, k).mood == (if k >= 4 then Sad else g.mood)
  {
    if k > 0 {
      StagesFromReset(g, k - 1);
      StagesCounter(g, k - 1);
    }
  }

  lemma StagesReplay(g: Stage, k: nat)
    requires g.noClicks == 0 && k > 0
    ensures Stages(g, k + 4).message == Stages(g, k).message
    ensures Stages(g, k + 4).noClicks == Stages(g, k).noClicks
  {
    assert (k + 4 - 1) % 4 == (k - 1) % 4 && (k + 4) % 4 == k % 4;
    StagesFromReset(g, k);
    StagesFromReset(g, k + 4);
    StagesCounter(g, k);
    StagesCounter(g, k + 4);
  }

  /** After k clicks the growth factor is min(1.8, s + 0.12 k). */
  lemma NoClicksScale(s: State, k: nat, rands: nat -> nat -> Draw)
    requires forall j: nat :: UnitStream(rands(j))
    ensures k > 0 ==> NoClicks(s, k, rands).yesScale == Min(MaxScale, s.yesScale + ScaleStep * k)
  {
    NoClicksStages(s, k, rands);
    StagesScale(StageOf(s), k);
  }

  /** The factor never decreases under "No" clicks. */
  lemma NoClicksScaleMonotone(s: State, k: nat, rands: nat -> nat -> Draw)
    requires forall j: nat :: UnitStream(rands(j))
    requires s.yesScale <= MaxScale
    ensures s.yesScale <= NoClicks(s, k, rands).yesScale <= MaxScale
  {
    NoClicksScale(s, k, rands);
  }

  /** The counter counts clicks modulo 4. */
  lemma NoClicksCounter(s: State, k: nat, rands: nat -> nat -> Draw)
    requires forall j: nat :: UnitStream(rands(j))
    requires 0 <= s.noClicks <= 3
    ensures NoClicks(s, k, rands).noClicks == (s.noClicks + k) % 4
  {
    NoClicksStages(s, k, rands);
    StagesCounter(StageOf(s), k);
  }

  /** From a reset counter, the k-th click shows step ((k - 1) mod 4) + 1's
      message, and the mood turns sad exactly from the 4th click on. */
  lemma NoClicksFromReset(s: State, k: nat, rands: nat -> nat -> Draw)
    requires forall j: nat :: UnitStream(rands(j))
    requires s.noClicks == 0
    ensures k > 0 ==> NoClicks(s, k, rands).message == StepMessage((k - 1) % 4 + 1)
    ensures NoClicks(s, k, rands).mood == (if k >= 4 then Sad else s.mood)
  {
    NoClicksStages(s, k, rands);
    StagesFromReset(StageOf(s), k);
  }

  /** Clicks replay the sequence every four: from a reset counter the
      (k + 4)-th click shows what the k-th showed and leaves the same counter. */
  lemma ReplayEveryFourth(s: State, k: nat, rands: nat -> nat -> Draw)
    requires forall j: nat :: UnitStream(rands(j))
    requires s.noClicks == 0 && k > 0
    ensures NoClicks(s, k + 4, rands).message == NoClicks(s, k, rands).message
    ensures NoClicks(s, k + 4, rands).noClicks == NoClicks(s, k, rands).noClicks
  {
    NoClicksStages(s, k, rands);
    NoClicksStages(s, k + 4, rands);
    StagesReplay(StageOf(s), k);
  }

  /** Clicking "No" 1, 2, 3, 4 and 5 times from a reset counter shows the four
      messages in order and then the first again; only the 4th turns the mood sad. */
  lemma DeclineSequence(s: State, k: nat, rands: nat -> nat -> Draw)
    requires forall j: nat :: UnitStream(rands(j))
    requires s.noClicks == 0 && 1 <= k <= 5
    ensures k == 1 ==> NoClicks(s, k, rands).message == Misclick
    ensures k == 2 ==> NoClicks(s, k, rands).message == Funny
    ensures k == 3 ==> NoClicks(s, k, rands).message == ForReal
    ensures k == 4 ==> NoClicks(s, k, rands).message == SadMessage
    ensures k == 5 ==> NoClicks(s, k, rands).message == Misclick && NoClicks(s, k, rands).noClicks == 1
    ensures NoClicks(s, k, rands).mood == Sad <==> k >= 4 || s.mood == Sad
  {
    NoClicksFromReset(s, k, rands);
    NoClicksCounter(s, k, rands);
  }

  /** After "Yes" and then k "No" clicks the factor is min(180, 100 + 12 k). */
  lemma ScaleAfterYes(s: State, rand: nat -> Draw, k: nat, rands: nat -> nat -> Draw)
    requires UnitStream(rand) && forall j: nat :: UnitStream(rands(j))
    ensures NoClicks(YesStep(s, rand), k, rands).yesScale == Min(MaxScale, BaseScale + ScaleStep * k)
  {
    NoClicksScale(YesStep(s, rand), k, rands);
  }

  /** "Yes" forgets the escalation: its result depends only on the heart
      pool, the pending prune timers and the clock. */
  lemma YesForgetsEscalation(s: State, s': State, rand: nat -> Draw)
    requires UnitStream(rand)
    requires s.hearts == s'.hearts && s.heartPrunes == s'.heartPrunes
    requires s.badPrunes == s'.badPrunes && s.now == s'.now
    ensures YesStep(s, rand) == YesStep(s', rand)
  {
  }
}
