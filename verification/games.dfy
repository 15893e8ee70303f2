/**
  The top-level game: a five-state mode machine behind a frame-skip gate.
  The level (map, player and projection together) is an abstract
  collaborator of type L reached only through `LevelOps`: reset at a time,
  update at a time with keys, and the game-over verdict.

  As written, the reference time of the frame-skip gate is set when the
  game is built and never advanced, so the gate always measures time since
  construction.
*/
module Games {
  import opened Engine
  import Menus

  const FrameUpdateSeconds: real := 1.0 / 50.0
  const GameOverTimeSeconds: real := 1.0

  datatype GameMode = StartMenu | StartToLevel | Level | ToGameOver | GameOver

  /** The level's operations the game calls. */
  datatype LevelOps<!L> = LevelOps(
    reset: (L, real) -> L,
    update: (L, real, MoveKeys) -> L,
    checkGameOver: L -> bool)

  datatype Game<L> = Game(
    mode: GameMode,
    level: L,
    menu: Menus.StartMenu,
    lastUpdateTime: real,
    gameoverTimestamp: real)

  /** `level` is the level the caller built for this game. */
  function New<L>(level: L, time: real): (g: Game<L>)
    ensures g.mode == StartMenu && g.level == level
    ensures !Menus.RequestLevelStart(g.menu)
    ensures g.lastUpdateTime == time && g.gameoverTimestamp == 0.0
  {
    Game(StartMenu, level, Menus.New(), time, 0.0)
  }

  /** Skip unless at least one frame period has passed; equality is not skipped. */
  function SkipFrame<L>(g: Game<L>, currentTime: real): (skip: bool)
    ensures !skip <==> currentTime >= g.lastUpdateTime + FrameUpdateSeconds
  {
    if currentTime - g.lastUpdateTime >= FrameUpdateSeconds then false else true
  }

  /** Update the menu; leave for StartToLevel exactly when the latch is then set. */
  function RunStartMenu<L>(g: Game<L>, keys: MoveKeys): (g': Game<L>)
    ensures g'.menu == Menus.Update(g.menu, keys)
    ensures Menus.RequestLevelStart(Menus.Update(g.menu, keys)) ==> g'.mode == StartToLevel
    ensures !Menus.RequestLevelStart(Menus.Update(g.menu, keys)) ==> g'.mode == g.mode
    ensures g'.level == g.level && g'.lastUpdateTime == g.lastUpdateTime
    ensures g'.gameoverTimestamp == g.gameoverTimestamp
  {
    var g1 := g.(menu := Menus.Update(g.menu, keys));
    if Menus.RequestLevelStart(g1.menu) then g1.(mode := StartToLevel) else g1
  }

  /** Reset the level at the current time and enter Level. */
  function InitLevel<L>(ops: LevelOps<L>, g: Game<L>, currentTime: real): (g': Game<L>)
    ensures g'.mode == Level && g'.level == ops.reset(g.level, currentTime)
    ensures g'.menu == g.menu && g'.lastUpdateTime == g.lastUpdateTime
    ensures g'.gameoverTimestamp == g.gameoverTimestamp
  {
    g.(level := ops.reset(g.level, currentTime), mode := Level)
  }

  /** Update the level; go to ToGameOver exactly when the updated level reports game over. */
  function RunGame<L>(ops: LevelOps<L>, g: Game<L>, currentTime: real, keys: MoveKeys): (g': Game<L>)
    ensures g'.level == ops.update(g.level, currentTime, keys)
    ensures ops.checkGameOver(g'.level) ==> g'.mode == ToGameOver
    ensures !ops.checkGameOver(g'.level) ==> g'.mode == g.mode
    ensures g'.menu == g.menu && g'.lastUpdateTime == g.lastUpdateTime
    ensures g'.gameoverTimestamp == g.gameoverTimestamp
  {
    var g1 := g.(level := ops.update(g.level, currentTime, keys));
    if ops.checkGameOver(g1.level) then g1.(mode := ToGameOver) else g1
  }

  /** Record the time of the game over and enter GameOver. */
  function InitGameOver<L>(g: Game<L>, currentTime: real): (g': Game<L>)
    ensures g'.mode == GameOver && g'.gameoverTimestamp == currentTime
    ensures g'.level == g.level && g'.menu == g.menu && g'.lastUpdateTime == g.lastUpdateTime
  {
    g.(gameoverTimestamp := currentTime, mode := GameOver)
  }

  /**
    Return to Level with a reset level once strictly more than
    GameOverTimeSeconds have passed since the game over; until then nothing
    changes.
  */
  function RunGameOver<L>(ops: LevelOps<L>, g: Game<L>, currentTime: real): (g': Game<L>)
    ensures currentTime > g.gameoverTimestamp + GameOverTimeSeconds ==>
              g'.mode == Level && g'.level == ops.reset(g.level, currentTime)
    ensures currentTime <= g.gameoverTimestamp + GameOverTimeSeconds ==> g' == g
    ensures g'.menu == g.menu && g'.lastUpdateTime == g.lastUpdateTime
    ensures g'.gameoverTimestamp == g.gameoverTimestamp
  {
    if currentTime - g.gameoverTimestamp > GameOverTimeSeconds then
      g.(mode := Level, level := ops.reset(g.level, currentTime))
    else g
  }

  /**
    The moves the mode machine allows in one call: stay put, or follow one
    edge StartMenu -> StartToLevel -> Level -> ToGameOver -> GameOver -> Level.
  */
  predicate Step(m: GameMode, m': GameMode) {
    m' == m ||
    match m
    case StartMenu => m' == StartToLevel
    case StartToLevel => m' == Level
    case Level => m' == ToGameOver
    case ToGameOver => m' == GameOver
    case GameOver => m' == Level
  }

  /** One call of the game's per-frame entry point. */
  function Run<L>(ops: LevelOps<L>, g: Game<L>, currentTime: real, keys: MoveKeys): (g': Game<L>)
    ensures SkipFrame(g, currentTime) ==> g' == g
    ensures Step(g.mode, g'.mode)
    ensures g'.lastUpdateTime == g.lastUpdateTime
    ensures g.mode != StartMenu ==> g'.menu == g.menu
  {
    if SkipFrame(g, currentTime) then g
    else
      match g.mode
      case StartMenu => RunStartMenu(g, keys)
      case StartToLevel => InitLevel(ops, g, currentTime)
      case Level => RunGame(ops, g, currentTime, keys)
      case ToGameOver => InitGameOver(g, currentTime)
      case GameOver => RunGameOver(ops, g, currentTime)
  }

  /** In the start menu the mode advances exactly when the latch is set after the update. */
  lemma StartMenuStep<L>(ops: LevelOps<L>, g: Game<L>, t: real, keys: MoveKeys)
    requires g.mode == StartMenu && !SkipFrame(g, t)
    ensures var g' := Run(ops, g, t, keys);
            && g'.menu == Menus.Update(g.menu, keys)
            && (g'.mode == StartToLevel <==> Menus.RequestLevelStart(Menus.Update(g.menu, keys)))
            && (g'.mode == StartMenu <==> !Menus.RequestLevelStart(Menus.Update(g.menu, keys)))
            && g'.level == g.level && g'.gameoverTimestamp == g.gameoverTimestamp
  {
  }

  /** StartToLevel resets the level at the current time and enters Level. */
  lemma StartToLevelStep<L>(ops: LevelOps<L>, g: Game<L>, t: real, keys: MoveKeys)
    requires g.mode == StartToLevel && !SkipFrame(g, t)
    ensures var g' := Run(ops, g, t, keys);
            g'.mode == Level && g'.level == ops.reset(g.level, t) &&
            g'.menu == g.menu && g'.gameoverTimestamp == g.gameoverTimestamp
  {
  }

  /** In Level the level is updated, and the mode becomes ToGameOver iff it then reports game over. */
  lemma LevelStep<L>(ops: LevelOps<L>, g: Game<L>, t: real, keys: MoveKeys)
    requires g.mode == Level && !SkipFrame(g, t)
    ensures var g' := Run(ops, g, t, keys);
            && g'.level == ops.update(g.level, t, keys)
            && (g'.mode == ToGameOver <==> ops.checkGameOver(ops.update(g.level, t, keys)))
            && (g'.mode == Level <==> !ops.checkGameOver(ops.update(g.level, t, keys)))
            && g'.gameoverTimestamp == g.gameoverTimestamp
  {
  }

  /** ToGameOver records the time of the game over and enters GameOver. */
  lemma ToGameOverStep<L>(ops: LevelOps<L>, g: Game<L>, t: real, keys: MoveKeys)
    requires g.mode == ToGameOver && !SkipFrame(g, t)
    ensures var g' := Run(ops, g, t, keys);
            g'.mode == GameOver && g'.gameoverTimestamp == t && g'.level == g.level
  {
  }

  /**
    GameOver returns to Level, resetting the level, only once strictly more
    than GameOverTimeSeconds have passed since the game-over time; otherwise
    nothing changes.
  */
  lemma GameOverStep<L>(ops: LevelOps<L>, g: Game<L>, t: real, keys: MoveKeys)
    requires g.mode == GameOver && !SkipFrame(g, t)
    ensures var g' := Run(ops, g, t, keys);
            && (g'.mode == Level <==> t - g.gameoverTimestamp > GameOverTimeSeconds)
            && (g'.mode == Level ==> g'.level == ops.reset(g.level, t))
            && (g'.mode == GameOver ==> g' == g)
  {
  }

  /** Exactly one second after the game over the game still waits. */
  lemma GameOverBoundary<L>(ops: LevelOps<L>, g: Game<L>, keys: MoveKeys)
    requires g.mode == GameOver && !SkipFrame(g, g.gameoverTimestamp + GameOverTimeSeconds)
    ensures Run(ops, g, g.gameoverTimestamp + GameOverTimeSeconds, keys).mode == GameOver
  {
  }

  /** The game after a sequence of frames, in order. */
  function Runs<L>(ops: LevelOps<L>, g: Game<L>, frames: seq<Frame>): Game<L>
    decreases |frames|
  {
    if |frames| == 0 then g
    else Runs(ops, Run(ops, g, frames[0].time, frames[0].keys), frames[1..])
  }

  /**
    No call ever moves the frame-skip reference time, so after any
    sequence of frames the gate still measures from construction time.
  */
  lemma {:induction false} RunsKeepReferenceTime<L>(ops: LevelOps<L>, level: L, t0: real, frames: seq<Frame>, t: real)
    ensures Runs(ops, New(level, t0), frames).lastUpdateTime == t0
    ensures SkipFrame(Runs(ops, New(level, t0), frames), t) <==> t - t0 < FrameUpdateSeconds
  {
    RunsKeepLastUpdateTime(ops, New(level, t0), frames);
  }

  lemma {:induction false} RunsKeepLastUpdateTime<L>(ops: LevelOps<L>, g: Game<L>, frames: seq<Frame>)
    ensures Runs(ops, g, frames).lastUpdateTime == g.lastUpdateTime
    decreases |frames|
  {
    if |frames| > 0 {
      RunsKeepLastUpdateTime(ops, Run(ops, g, frames[0].time, frames[0].keys), frames[1..]);
    }
  }

  /** Once the start menu is left the game never returns to it. */
  lemma {:induction false} NeverBackToStartMenu<L>(ops: LevelOps<L>, g: Game<L>, frames: seq<Frame>)
    requires g.mode != StartMenu
    ensures Runs(ops, g, frames).mode != StartMenu
    decreases |frames|
  {
    if |frames| > 0 {
      NeverBackToStartMenu(ops, Run(ops, g, frames[0].time, frames[0].keys), frames[1..]);
    }
  }

  /**
    The frame-skip gate on a fresh game: at 0.9 periods it skips, at 1.1 it
    does not; and because it mutates nothing, calls at 0.45 and 0.9 both
    skip while a following call at 1.35 periods does not.
  */
  lemma SkipFrameExamples<L>(level: L, t0: real)
    ensures SkipFrame(New(level, t0), t0 + FrameUpdateSeconds * 0.90)
    ensures !SkipFrame(New(level, t0), t0 + FrameUpdateSeconds * 1.10)
    ensures !SkipFrame(New(level, t0), t0 + FrameUpdateSeconds)
    ensures SkipFrame(New(level, t0), t0 + FrameUpdateSeconds * 0.45)
            && SkipFrame(New(level, t0), t0 + FrameUpdateSeconds * 0.90)
            && !SkipFrame(New(level, t0), t0 + FrameUpdateSeconds * 1.35)
  {
  }

  /** From a fresh game at time 0, up at 0.1 s requests the level but does not touch it yet. */
  lemma FirstUpStartsLevel<L>(ops: LevelOps<L>, level: L)
    ensures var g := Run(ops, New(level, 0.0), 0.1, UpPress);
            g.mode == StartToLevel && g.level == level
  {
  }

  /**
    From a fresh game at time 0, the frames none/up/up/up at 0.1 s steps
    end in Level with a level reset at 0.3 s and updated at 0.4 s, provided
    that level does not report game over.
  */
  lemma StartSequenceEndsInLevel<L>(ops: LevelOps<L>, level: L)
    requires !ops.checkGameOver(ops.update(ops.reset(level, 0.3), 0.4, UpPress))
    ensures var g := Runs(ops, New(level, 0.0),
                          [Frame(0.1, NoPress), Frame(0.2, UpPress), Frame(0.3, UpPress), Frame(0.4, UpPress)]);
            g.mode == Level && g.level == ops.update(ops.reset(level, 0.3), 0.4, UpPress)
  {
    var fs := [Frame(0.1, NoPress), Frame(0.2, UpPress), Frame(0.3, UpPress), Frame(0.4, UpPress)];
    var g0 := New(level, 0.0);
    var g1 := Run(ops, g0, 0.1, NoPress);
    assert g1.mode == StartMenu && g1.level == level;
    var g2 := Run(ops, g1, 0.2, UpPress);
    assert g2.mode == StartToLevel && g2.level == level;
    var g3 := Run(ops, g2, 0.3, UpPress);
    assert g3.mode == Level && g3.level == ops.reset(level, 0.3);
    var g4 := Run(ops, g3, 0.4, UpPress);
    assert g4.mode == Level;
    assert fs[1..][1..] == fs[2..];
    assert fs[2..][1..] == fs[3..];
    assert fs[3..][1..] == [];
    assert Runs(ops, g3, fs[3..]) == g4;
    assert Runs(ops, g2, fs[2..]) == g4;
    assert Runs(ops, g1, fs[1..]) == g4;
  }
}
