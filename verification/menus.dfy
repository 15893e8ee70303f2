/**
  The start menu: a one-bit latch that the up key sets and nothing clears.
*/
module Menus {
  import opened Engine

  datatype StartMenu = StartMenu(levelStart: bool)

  function New(): (m: StartMenu)
    ensures !RequestLevelStart(m)
  {
    StartMenu(false)
  }

  /** Up sets the latch; any other input leaves the menu exactly as it was. */
  function Update(m: StartMenu, keys: MoveKeys): (m': StartMenu)
    ensures keys.up ==> RequestLevelStart(m')
    ensures !keys.up ==> m' == m
    ensures RequestLevelStart(m) ==> RequestLevelStart(m')
  {
    if keys.up then m.(levelStart := true) else m
  }

  /** Whether the player asked to start a level; a pure read of the latch. */
  function RequestLevelStart(m: StartMenu): (r: bool)
    ensures r <==> m == StartMenu(true)
  {
    m.levelStart
  }

  /** The menu after a sequence of key states, in order. */
  function Updates(m: StartMenu, ks: seq<MoveKeys>): StartMenu
    decreases |ks|
  {
    if |ks| == 0 then m else Updates(Update(m, ks[0]), ks[1..])
  }

  /**
    The latch is set after a sequence of updates exactly when it was set
    before or up was held in at least one of them.
  */
  lemma {:induction false} UpdatesLatch(m: StartMenu, ks: seq<MoveKeys>)
    ensures RequestLevelStart(Updates(m, ks)) <==>
            (RequestLevelStart(m) || exists i :: 0 <= i < |ks| && ks[i].up)
    decreases |ks|
  {
    if |ks| > 0 {
      UpdatesLatch(Update(m, ks[0]), ks[1..]);
      if exists i :: 0 <= i < |ks| && ks[i].up {
        var i :| 0 <= i < |ks| && ks[i].up;
        if i > 0 {
          assert ks[1..][i - 1].up;
        }
      }
      if exists j :: 0 <= j < |ks[1..]| && ks[1..][j].up {
        var j :| 0 <= j < |ks[1..]| && ks[1..][j].up;
        assert ks[j + 1].up;
      }
    }
  }

  /** Once set, the latch stays set whatever follows. */
  lemma {:induction false} LatchMonotone(m: StartMenu, ks: seq<MoveKeys>)
    requires RequestLevelStart(m)
    ensures RequestLevelStart(Updates(m, ks))
    decreases |ks|
  {
    if |ks| > 0 {
      LatchMonotone(Update(m, ks[0]), ks[1..]);
    }
  }
}
