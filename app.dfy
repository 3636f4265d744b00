/** The play-through controller of App.tsx: the game's phase, the prize won, the
    wheel's rotation and the two timer continuations a spin schedules. Each handler
    of the page is one method; the page's render guards, which decide which
    buttons exist, are the preconditions of the handlers those buttons call. */
module App {
  import opened GameTypes
  import Wheel
  import Targeting
  import DataModal

  /** The spin button is enabled: `disabled={gameState !== IDLE}`. */
  predicate SpinButtonLive(s: GameState)
  {
    s == Idle
  }

  /** The data form is rendered: COLLECTING_DATA with a prize set. */
  predicate ModalShown(s: GameState, p: Option<Prize>)
  {
    s == CollectingData && p.Some?
  }

  /** The success view, with its back-to-home button, is rendered: SUCCESS with a prize set. */
  predicate SuccessShown(s: GameState, p: Option<Prize>)
  {
    s == Success && p.Some?
  }

  /** The page is stranded: no event (a timer or the configuration fetch) is
      pending, and the loaded page shows no enabled spin button, no form and no
      success view, so no handler can ever run again. Before the configuration
      loads, only the loading screen is rendered. */
  predicate Stranded(s: GameState, p: Option<Prize>, eventPending: bool, loaded: bool)
  {
    !eventPending && !(loaded && (SpinButtonLive(s) || ModalShown(s, p) || SuccessShown(s, p)))
  }

  /** The prize handleSpinStart captures, as written: `prizes[floor(r * n)]`,
      which for an index past the end is `undefined` (here None). */
  function CapturedPrizeAsWritten(prizes: seq<Prize>, r: real): (p: Option<Prize>)
    requires 0.0 <= r < 1.0
    ensures p.Some? <==> |prizes| >= 1
    ensures |prizes| >= 1 ==> p == Some(prizes[Targeting.DrawIndex(r, |prizes|)])
  {
    var i := (r * |prizes| as real).Floor;
    assert |prizes| >= 1 ==> i == Targeting.DrawIndex(r, |prizes|);
    if 0 <= i < |prizes| then Some(prizes[i]) else None
  }

  /** The page's phase, its prize, and the two pending timer continuations, as
      the handlers of App.tsx update them without the empty-list guard. The spin
      timer holds the prize it captured, which may be `undefined` (Some(None)). */
  datatype PageAsWritten = PageAsWritten(
    phase: GameState,
    prize: Option<Prize>,
    spinTimer: Option<Option<Prize>>,
    celebrationTimer: bool)

  /** handleSpinStart as written: it looks only at the phase and whether a
      configuration exists, then schedules the spin timer with whatever
      `prizes[floor(r * n)]` gives. On a non-empty list the captured prize is
      the drawn one, as in Game.SpinStart. */
  function SpinAsWritten(s: PageAsWritten, config: Option<Config>, r: real): (t: PageAsWritten)
    requires 0.0 <= r < 1.0
    ensures s.phase != Idle || config.None? ==> t == s
    ensures s.phase == Idle && config.Some? ==>
      t.phase == Spinning && t.prize == s.prize && t.celebrationTimer == s.celebrationTimer &&
      t.spinTimer == Some(CapturedPrizeAsWritten(config.value.prizes, r))
    ensures s.phase == Idle && config.Some? && |config.value.prizes| >= 1 ==>
      t.spinTimer == Some(Some(config.value.prizes[Targeting.DrawIndex(r, |config.value.prizes|)]))
  {
    if s.phase != Idle || config.None? then s
    else s.(phase := Spinning, spinTimer := Some(CapturedPrizeAsWritten(config.value.prizes, r)))
  }

  /** The spin timer's continuation as written: it records the captured prize
      and sets WON whatever that prize is, then schedules the celebration timer. */
  function SpinTimerAsWritten(s: PageAsWritten): (t: PageAsWritten)
    requires s.spinTimer.Some?
    ensures t.phase == Won && t.prize == s.spinTimer.value
    ensures t.spinTimer == None && t.celebrationTimer
  {
    PageAsWritten(Won, s.spinTimer.value, None, true)
  }

  /** The celebration timer's continuation as written: it sets COLLECTING_DATA
      unconditionally and changes nothing else. */
  function CelebrationAsWritten(s: PageAsWritten): (t: PageAsWritten)
    requires s.celebrationTimer
    ensures t.phase == CollectingData && !t.celebrationTimer
    ensures t.prize == s.prize && t.spinTimer == s.spinTimer
  {
    s.(phase := CollectingData, celebrationTimer := false)
  }

  /** As written, a spin over an empty prize list is not refused: from a loaded
      page in IDLE, the spin captures `undefined`, and the two timer
      continuations still move the game to WON and then to COLLECTING_DATA with
      no prize. No timer is then pending and the form's render guard fails, so
      the page is stranded. */
  lemma EmptyPrizeListStrandsGame(rewardCode: string, r: real)
    requires 0.0 <= r < 1.0
    ensures var s1 := SpinAsWritten(PageAsWritten(Idle, None, None, false), Some(Config([], rewardCode)), r);
      s1.phase == Spinning && s1.spinTimer == Some(None) &&
      var s3 := CelebrationAsWritten(SpinTimerAsWritten(s1));
      s3 == PageAsWritten(CollectingData, None, None, false) &&
      Stranded(s3.phase, s3.prize, s3.spinTimer.Some? || s3.celebrationTimer, true)
  {
  }

  /** On a non-empty list the as-written handlers are sound: the same three
      steps reach COLLECTING_DATA with the drawn prize, and the form is shown. */
  lemma NonEmptyPrizeListReachesForm(c: Config, r: real)
    requires 0.0 <= r < 1.0
    requires |c.prizes| >= 1
    ensures var s3 := CelebrationAsWritten(SpinTimerAsWritten(SpinAsWritten(PageAsWritten(Idle, None, None, false), Some(c), r)));
      s3 == PageAsWritten(CollectingData, Some(c.prizes[Targeting.DrawIndex(r, |c.prizes|)]), None, false) &&
      ModalShown(s3.phase, s3.prize)
  {
  }

  /** With the empty-list guard in SpinStart, no reachable state is stranded;
      before the configuration loads, the pending fetch is the awaited event. */
  lemma NeverStranded(g: Game)
    requires g.Valid()
    ensures !Stranded(g.gameState, g.winningPrize, g.spinTimer.Some? || g.celebrationTimer || g.config.None?, g.config.Some?)
  {
  }

  class Game {
    /** The loaded configuration; None until the fetch completes. */
    var config: Option<Config>
    var gameState: GameState
    var winningPrize: Option<Prize>
    /** The absolute rotation, in degrees, handed to the wheel. */
    var rotation: real
    /** The pending spin-timer continuation and the prize it captured. */
    var spinTimer: Option<Prize>
    /** Whether the celebration-timer continuation is pending. */
    var celebrationTimer: bool
    /** The index drawn by the current play-through. */
    ghost var drawn: int

    /** The object invariant: in IDLE the wheel is at rest at 0; outside IDLE a
        wheel of |prizes| segments rests with the pointer on the label of the
        drawn segment, and the prize pending in the spin timer or already won is
        that segment's prize; each timer is pending exactly in the phase that
        waits for it; a prize is recorded exactly from WON onwards. */
    ghost predicate Valid()
      reads this
    {
      (gameState == Idle ==> rotation == 0.0) &&
      (spinTimer.Some? <==> gameState == Spinning) &&
      (celebrationTimer <==> gameState == Won) &&
      (winningPrize.None? <==> gameState == Idle || gameState == Spinning) &&
      (gameState != Idle ==>
        config.Some? &&
        0 <= drawn < |config.value.prizes| &&
        Wheel.PointerAngle(rotation) == Wheel.LabelAngle(drawn, |config.value.prizes|) &&
        Wheel.SegmentUnderPointer(rotation, |config.value.prizes|) == drawn &&
        (spinTimer.Some? ==> spinTimer.value == config.value.prizes[drawn]) &&
        (winningPrize.Some? ==> winningPrize.value == config.value.prizes[drawn]))
    }

    /** The spin button does anything: the page is past its loading screen, the
        button is enabled, and (the correction to the code) the prize list is
        not empty. */
    predicate SpinEnabled()
      reads this
    {
      config.Some? && |config.value.prizes| >= 1 && SpinButtonLive(gameState)
    }

    /** The page before its configuration arrives. */
    constructor ()
      ensures Valid()
      ensures config == None && gameState == Idle && winningPrize == None && rotation == 0.0
      ensures spinTimer == None && !celebrationTimer
    {
      config := None;
      gameState := Idle;
      winningPrize := None;
      rotation := 0.0;
      spinTimer := None;
      celebrationTimer := false;
      drawn := 0;
    }

    /** The configuration fetch completes, once. */
    method LoadConfig(c: Config)
      requires Valid() && config == None
      modifies this
      ensures Valid()
      ensures config == Some(c)
      ensures gameState == old(gameState) && winningPrize == old(winningPrize) && rotation == old(rotation)
      ensures spinTimer == old(spinTimer) && celebrationTimer == old(celebrationTimer)
    {
      config := Some(c);
    }

    /** The spin button: ignored unless the game is IDLE with its configuration
        loaded and, correcting the code, a non-empty prize list; otherwise draws
        an index from the sample r, sends the wheel (at rest at 0) to the target
        rotation at once and schedules the spin timer with the drawn prize. No
        prize is recorded yet. */
    method SpinStart(r: real)
      requires Valid()
      requires 0.0 <= r < 1.0
      modifies this
      ensures Valid()
      ensures !old(SpinEnabled()) ==>
        gameState == old(gameState) && winningPrize == old(winningPrize) && rotation == old(rotation) &&
        spinTimer == old(spinTimer) && celebrationTimer == old(celebrationTimer) && config == old(config)
      ensures old(SpinEnabled()) ==>
        var prizes := old(config).value.prizes;
        var i := Targeting.DrawIndex(r, |prizes|);
        config == old(config) &&
        drawn == i &&
        gameState == Spinning &&
        winningPrize == None &&
        old(rotation) == 0.0 &&
        rotation == Targeting.Target(0.0, i, |prizes|) &&
        rotation > old(rotation) &&
        spinTimer == Some(prizes[i]) &&
        !celebrationTimer
    {
      if gameState != Idle || config.None? || |config.value.prizes| == 0 {
        return;
      }
      gameState := Spinning;
      var prizes := config.value.prizes;
      var i := Targeting.DrawIndex(r, |prizes|);
      var prize := prizes[i];
      Targeting.TargetLandsOnDrawn(rotation, i, |prizes|);
      Targeting.TargetMovesForward(rotation, i, |prizes|);
      rotation := Targeting.Target(rotation, i, |prizes|);
      spinTimer := Some(prize);
      drawn := i;
    }

    /** The spin timer fires: the captured prize is recorded, the game enters WON
        and the celebration timer is scheduled. */
    method SpinTimerFires()
      requires Valid() && spinTimer.Some?
      modifies this
      ensures Valid()
      ensures winningPrize == old(spinTimer) && gameState == Won
      ensures spinTimer == None && celebrationTimer
      ensures rotation == old(rotation) && config == old(config) && drawn == old(drawn)
    {
      winningPrize := spinTimer;
      gameState := Won;
      spinTimer := None;
      celebrationTimer := true;
    }

    /** The celebration timer fires: WON gives way to COLLECTING_DATA; nothing else changes. */
    method CelebrationTimerFires()
      requires Valid() && celebrationTimer
      modifies this
      ensures Valid()
      ensures old(gameState) == Won && gameState == CollectingData && !celebrationTimer
      ensures winningPrize == old(winningPrize) && rotation == old(rotation)
      ensures spinTimer == old(spinTimer) && config == old(config) && drawn == old(drawn)
    {
      gameState := CollectingData;
      celebrationTimer := false;
    }

    /** The form forwarded its data: the game succeeds, keeping prize and rotation. */
    method FormSubmit(data: DataModal.Draft)
      requires Valid() && ModalShown(gameState, winningPrize)
      modifies this
      ensures Valid() && SuccessShown(gameState, winningPrize)
      ensures gameState == Success
      ensures winningPrize == old(winningPrize) && rotation == old(rotation)
      ensures spinTimer == old(spinTimer) && celebrationTimer == old(celebrationTimer) && config == old(config)
      ensures drawn == old(drawn)
    {
      gameState := Success;
    }

    /** The player skipped the form: the game succeeds, keeping prize and rotation. */
    method Skip()
      requires Valid() && ModalShown(gameState, winningPrize)
      modifies this
      ensures Valid() && SuccessShown(gameState, winningPrize)
      ensures gameState == Success
      ensures winningPrize == old(winningPrize) && rotation == old(rotation)
      ensures spinTimer == old(spinTimer) && celebrationTimer == old(celebrationTimer) && config == old(config)
      ensures drawn == old(drawn)
    {
      gameState := Success;
    }

    /** What the form hands back reaches the game: forwarded data and a skip both
        succeed, a submission blocked for want of consent changes nothing. */
    method HandleModal(o: DataModal.Outcome)
      requires Valid() && ModalShown(gameState, winningPrize)
      modifies this
      ensures Valid()
      ensures gameState == (if o.Blocked? then CollectingData else Success)
      ensures winningPrize == old(winningPrize) && rotation == old(rotation)
      ensures spinTimer == old(spinTimer) && celebrationTimer == old(celebrationTimer) && config == old(config)
      ensures drawn == old(drawn)
    {
      match o
      case Forwarded(data) => FormSubmit(data);
      case Skipped => Skip();
      case Blocked =>
    }

    /** Back to home from the success view: IDLE, no prize, the wheel back at 0,
        and the spin button live again. */
    method Reset()
      requires Valid() && SuccessShown(gameState, winningPrize)
      modifies this
      ensures Valid() && SpinEnabled()
      ensures gameState == Idle && winningPrize == None && rotation == 0.0
      ensures spinTimer == None && !celebrationTimer && config == old(config)
    {
      gameState := Idle;
      winningPrize := None;
      rotation := 0.0;
    }
  }

  /** One play-through on a fresh page, wired as App wires its handlers: the
      configuration loads, the player spins with sample r, both timers fire, the
      player ticks (or not) the consent box and submits. The prize recorded is
      the prize at the drawn index, the wheel shows that segment under the
      pointer (so, when the configured list is the wheel's own list, the pointer
      shows the prize that was won), and the game succeeds exactly when consent
      was given. */
  method PlayThrough(c: Config, r: real, consent: bool) returns (awarded: Prize, shown: int, final: GameState)
    requires |c.prizes| >= 1
    requires 0.0 <= r < 1.0
    ensures awarded == c.prizes[Targeting.DrawIndex(r, |c.prizes|)]
    ensures shown == Targeting.DrawIndex(r, |c.prizes|)
    ensures c.prizes == Wheel.WheelPrizes ==> Wheel.WheelPrizes[shown] == awarded
    ensures final == (if consent then Success else CollectingData)
  {
    var g := new Game();
    g.LoadConfig(c);
    g.SpinStart(r);
    g.SpinTimerFires();
    g.CelebrationTimerFires();
    var form := new DataModal.ConsentForm();
    form.SetConsent(consent);
    var o := form.Submit();
    g.HandleModal(o);
    awarded := g.winningPrize.value;
    shown := Wheel.SegmentUnderPointer(g.rotation, |c.prizes|);
    final := g.gameState;
  }
}
