/**
 * Round and roster logic of the tanks demo's `GameManager`: spawning and
 * numbering the roster, the round-end predicate and winner query, the stats
 * derived every frame, per-tank control, the three-screen switch and the
 * Firestorm shell loop. The engine (instantiation, components, the camera,
 * the random source) is an oracle: its answers are parameters or arbitrary
 * choices constrained only by what the game relies on.
 */
module Managers {
  import opened Display

  /**
   * One roster slot (a `TankManager`) as the round logic sees it:
   * `active` stands for `m_Instance.activeSelf`, `controlEnabled` for the
   * state the slot's `EnableControl`/`DisableControl` set.
   */
  datatype Tank = Tank(active: bool, playerNumber: int, controlEnabled: bool)

  /** The answer of GetRoundWinner: the winning slot, or a draw (`null`). */
  datatype RoundWinner = Draw | WonBy(slot: nat)

  /** The three panels the game switches between. */
  datatype Screen = MainMenuScreen | GameScreen | EndScreen

  /** A shell dropped by Firestorm, given by its spawn position. */
  datatype Shell = Shell(x: int, y: int, z: int)

  /** Height every Firestorm shell is spawned at. */
  const ShellDropHeight := 20

  function Abs(n: int): nat
  {
    if n < 0 then -n else n
  }

  // ---------------------------------------------------------------------
  // Roster specification

  /** Number of slots whose instance is active (the tanks left in the round). */
  function ActiveCount(roster: seq<Tank>): (n: nat)
    ensures n <= |roster|
  {
    if roster == [] then 0
    else ActiveCount(roster[..|roster| - 1]) + (if roster[|roster| - 1].active then 1 else 0)
  }

  /** No tank is left exactly when the count of active slots is zero. */
  lemma {:induction false} NoActiveIffCountZero(roster: seq<Tank>)
    ensures ActiveCount(roster) == 0 <==> forall i :: 0 <= i < |roster| ==> !roster[i].active
  {
    if roster != [] {
      var prefix := roster[..|roster| - 1];
      NoActiveIffCountZero(prefix);
      assert forall i :: 0 <= i < |prefix| ==> prefix[i] == roster[i];
    }
  }

  /** A roster whose every slot is active has them all left. */
  lemma {:induction false} AllActiveCount(roster: seq<Tank>)
    requires forall i :: 0 <= i < |roster| ==> roster[i].active
    ensures ActiveCount(roster) == |roster|
  {
    if roster != [] {
      var prefix := roster[..|roster| - 1];
      assert forall i :: 0 <= i < |prefix| ==> prefix[i] == roster[i];
      AllActiveCount(prefix);
    }
  }

  /** At most one tank is left exactly when no two distinct slots are both active. */
  lemma {:induction false} AtMostOneActive(roster: seq<Tank>)
    ensures ActiveCount(roster) <= 1 <==>
      forall i, j :: 0 <= i < j < |roster| && roster[i].active ==> !roster[j].active
  {
    if roster != [] {
      var last := |roster| - 1;
      var prefix := roster[..last];
      assert forall i :: 0 <= i < last ==> prefix[i] == roster[i];
      AtMostOneActive(prefix);
      NoActiveIffCountZero(prefix);
      if roster[last].active {
        if ActiveCount(roster) > 1 {
          var k :| 0 <= k < last && prefix[k].active;
          assert roster[k].active && roster[last].active;
        }
      }
    }
  }

  /** The count of tanks left depends on the active flags only. */
  lemma {:induction false} ActiveCountOfSameFlags(a: seq<Tank>, b: seq<Tank>)
    requires |a| == |b|
    requires forall i :: 0 <= i < |a| ==> a[i].active == b[i].active
    ensures ActiveCount(a) == ActiveCount(b)
  {
    if a != [] {
      var n := |a| - 1;
      assert forall i :: 0 <= i < n ==> a[..n][i] == a[i] && b[..n][i] == b[i];
      ActiveCountOfSameFlags(a[..n], b[..n]);
    }
  }

  /** The roster with every slot's control set to `enabled` and nothing else changed. */
  function WithControl(roster: seq<Tank>, enabled: bool): (r: seq<Tank>)
    ensures |r| == |roster|
    ensures forall i :: 0 <= i < |r| ==>
      r[i].controlEnabled == enabled &&
      r[i].active == roster[i].active &&
      r[i].playerNumber == roster[i].playerNumber
  {
    seq(|roster|, i requires 0 <= i < |roster| => roster[i].(controlEnabled := enabled))
  }

  /** Enabling or disabling control never changes how many tanks are left. */
  lemma ControlKeepsTanksLeft(roster: seq<Tank>, enabled: bool)
    ensures ActiveCount(WithControl(roster, enabled)) == ActiveCount(roster)
  {
    ActiveCountOfSameFlags(WithControl(roster, enabled), roster);
  }

  /**
   * The roster after every slot's `Reset`: each tank is turned back on and
   * keeps its number and control state.
   */
  function ResetAll(roster: seq<Tank>): (r: seq<Tank>)
    ensures |r| == |roster|
    ensures forall i :: 0 <= i < |r| ==>
      r[i].active &&
      r[i].controlEnabled == roster[i].controlEnabled &&
      r[i].playerNumber == roster[i].playerNumber
  {
    seq(|roster|, i requires 0 <= i < |roster| => roster[i].(active := true))
  }

  /** Resetting twice leaves the roster as resetting once does. */
  lemma ResetAllIdempotent(roster: seq<Tank>)
    ensures ResetAll(ResetAll(roster)) == ResetAll(roster)
  {
  }

  /** After a reset every tank is left. */
  lemma ResetLeavesAllTanks(roster: seq<Tank>)
    ensures ActiveCount(ResetAll(roster)) == |roster|
  {
    AllActiveCount(ResetAll(roster));
  }

  /** Setting the control flags twice keeps only the last setting. */
  lemma WithControlOverrides(roster: seq<Tank>, first: bool, second: bool)
    ensures WithControl(WithControl(roster, first), second) == WithControl(roster, second)
  {
  }

  // ---------------------------------------------------------------------
  // Accuracy

  /** Euclidean division of naturals brackets the dividend between two multiples. */
  lemma DivBrackets(a: nat, b: nat)
    requires b > 0
    ensures (a / b) * b <= a < (a / b + 1) * b
  {
  }

  /** The `(int)` cast of the exact quotient: truncation toward zero (Dafny's `/` is Euclidean). */
  function TruncatingDiv(n: int, d: int): (q: int)
    requires d != 0
    ensures Abs(q) * Abs(d) <= Abs(n) < (Abs(q) + 1) * Abs(d)
    ensures (n >= 0) == (d > 0) ==> q >= 0
    ensures (n >= 0) != (d > 0) ==> q <= 0
  {
    var magnitude := Abs(n) / Abs(d);
    DivBrackets(Abs(n), Abs(d));
    if (n < 0) == (d < 0) then magnitude else -magnitude
  }

  /**
   * The accuracy percentage shown on the game screen: hits over shots,
   * times 100, truncated. A shot count of zero is replaced by one.
   */
  function Accuracy(hitCount: int, fireCount: int): (percent: int)
    ensures hitCount == 0 ==> percent == 0
    ensures fireCount == 0 ==> percent == 100 * hitCount
    ensures 0 <= hitCount && 0 < fireCount ==>
      0 <= percent && percent * fireCount <= 100 * hitCount < (percent + 1) * fireCount
    ensures 0 <= hitCount <= fireCount ==> 0 <= percent <= 100
  {
    var denominator := if fireCount == 0 then 1 else fireCount;
    var percent := TruncatingDiv(100 * hitCount, denominator);
    if 0 <= hitCount <= fireCount && 0 < fireCount then
      assert percent * fireCount <= 100 * hitCount <= 100 * fireCount;
      percent
    else
      percent
  }

  /** Two worked values: no shots gives 0, and 3 hits of 4 shots gives 75. */
  lemma AccuracyExamples()
    ensures Accuracy(0, 0) == 0
    ensures Accuracy(3, 4) == 75
  {
  }

  // ---------------------------------------------------------------------
  // Firestorm

  /** Where Firestorm may drop a shell: at the drop height, within the random range. */
  predicate InStormArea(shell: Shell, range: int)
  {
    shell.y == ShellDropHeight && Abs(shell.x) <= Abs(range) && Abs(shell.z) <= Abs(range)
  }

  /** `v` lies between the two bounds, whichever is the smaller. */
  predicate Between(v: int, bound1: int, bound2: int)
  {
    bound1 <= v <= bound2 || bound2 <= v <= bound1
  }

  /**
   * `Random.Range(min, max)`: the engine's random source, known here only
   * through its bound (a value between the two arguments).
   */
  method RandomRange(min: int, max: int) returns (r: int)
    ensures Between(r, min, max)
  {
    assert Between(min, min, max);
    r :| Between(r, min, max);
  }

  // ---------------------------------------------------------------------
  // The game manager

  class GameManager {
    /** `m_Tanks`: the fixed roster of slots. */
    const tanks: array<Tank>
    /** `m_ShellRandomRange` and `m_ShellWaveCount`, set in the inspector. */
    var shellRandomRange: int
    var shellWaveCount: int
    /** `style.display` of the three panels' visual trees. */
    var menuDisplay: DisplayStyle
    var gameDisplay: DisplayStyle
    var endDisplay: DisplayStyle
    /** Whether `m_SpeedLabel` was found when the game screen was bound. */
    var speedLabelBound: bool
    /** Whether `m_Player1Movement`/`m_Player1Shooting` have been taken from slot 0. */
    var player1Bound: bool
    /** The numbers last written to the kills, shots and accuracy labels. */
    var killsText: int
    var shotsText: int
    var accuracyText: int

    /** The set of screens whose panel is displayed. */
    ghost function Displayed(): set<Screen>
      reads this
    {
      (if menuDisplay == Flex then {MainMenuScreen} else {}) +
      (if gameDisplay == Flex then {GameScreen} else {}) +
      (if endDisplay == Flex then {EndScreen} else {})
    }

    /** A manager over `roster` with the declared shell defaults; the panels keep their initial display. */
    constructor (roster: array<Tank>)
      ensures tanks == roster
      ensures shellRandomRange == 20 && shellWaveCount == 10
      ensures !speedLabelBound && !player1Bound
    {
      tanks := roster;
      shellRandomRange := 20;
      shellWaveCount := 10;
      speedLabelBound := false;
      player1Bound := false;
    }

    /** The start hook: the game opens on the main menu. */
    method Start()
      modifies this`menuDisplay, this`gameDisplay, this`endDisplay
      ensures Displayed() == {MainMenuScreen}
    {
      GoToMainMenu();
    }

    /** The stat-label lookup of BindGameScreen, as far as Update's guard depends on it. */
    method BindGameScreen(speedLabelFound: bool)
      modifies this`speedLabelBound
      ensures speedLabelBound == speedLabelFound
    {
      speedLabelBound := speedLabelFound;
    }

    /**
     * Per-frame stats: kills is the roster size minus the tanks left, shots
     * the raw fire count, accuracy the guarded truncated percentage. Does
     * nothing until the labels and player 1 are bound and the roster is non-empty.
     */
    method Update(fireCount: int, hitCount: int) returns (refreshed: bool)
      modifies this`killsText, this`shotsText, this`accuracyText
      ensures refreshed <==> speedLabelBound && tanks.Length > 0 && player1Bound
      ensures refreshed ==> killsText == tanks.Length - ActiveCount(tanks[..])
      ensures refreshed ==> 0 <= killsText <= tanks.Length
      ensures refreshed ==> shotsText == fireCount && accuracyText == Accuracy(hitCount, fireCount)
      ensures !refreshed ==>
        killsText == old(killsText) && shotsText == old(shotsText) && accuracyText == old(accuracyText)
    {
      if !speedLabelBound || tanks.Length == 0 || !player1Bound {
        return false;
      }

      var kills := tanks.Length;
      for i := 0 to tanks.Length
        invariant kills == tanks.Length - ActiveCount(tanks[..i])
      {
        assert tanks[..i + 1][..i] == tanks[..i];
        if tanks[i].active {
          kills := kills - 1;
        }
      }
      assert tanks[..tanks.Length] == tanks[..];
      killsText := kills;

      var denominator := fireCount;
      shotsText := denominator;
      if denominator == 0 {
        denominator := 1;
      }
      accuracyText := TruncatingDiv(100 * hitCount, denominator);
      refreshed := true;
    }

    /**
     * Drops `shellWaveCount` shells (none when it is not positive), each at
     * the drop height with x and z drawn from the random range.
     */
    method Firestorm() returns (shells: seq<Shell>)
      ensures |shells| == if shellWaveCount > 0 then shellWaveCount else 0
      ensures forall i :: 0 <= i < |shells| ==> InStormArea(shells[i], shellRandomRange)
    {
      shells := [];
      var shellsLeft := shellWaveCount;
      while shellsLeft > 0
        invariant |shells| == shellWaveCount - shellsLeft
        invariant shellsLeft >= 0 || shellsLeft == shellWaveCount
        invariant forall i :: 0 <= i < |shells| ==> InStormArea(shells[i], shellRandomRange)
      {
        var x := RandomRange(-shellRandomRange, shellRandomRange);
        var z := RandomRange(-shellRandomRange, shellRandomRange);
        shells := shells + [Shell(x, ShellDropHeight, z)];
        shellsLeft := shellsLeft - 1;
      }
    }

    /**
     * Spawns every slot: a fresh active instance numbered `i + 1`. The
     * player-1 references are then taken from slot 0, which fails on an
     * empty roster (`ok` is false and the references stay as they were).
     */
    method SpawnAllTanks() returns (ok: bool)
      modifies tanks, this`player1Bound
      ensures ok <==> tanks.Length > 0
      ensures forall i :: 0 <= i < tanks.Length ==> tanks[i].active && tanks[i].playerNumber == i + 1
      ensures player1Bound == (ok || old(player1Bound))
    {
      for i := 0 to tanks.Length
        invariant forall k :: 0 <= k < i ==> tanks[k].active && tanks[k].playerNumber == k + 1
        invariant player1Bound == old(player1Bound)
      {
        // The control state of a fresh instance after `Setup` is the engine's.
        var control: bool :| true;
        tanks[i] := Tank(true, i + 1, control);
      }
      if tanks.Length == 0 {
        return false;
      }
      player1Bound := true;
      ok := true;
    }

    /** Turns every tank back on, keeping its number and control state. */
    method ResetAllTanks()
      modifies tanks
      ensures tanks[..] == ResetAll(old(tanks[..]))
    {
      for i := 0 to tanks.Length
        invariant forall k :: 0 <= k < i ==> tanks[k] == old(tanks[k]).(active := true)
        invariant forall k :: i <= k < tanks.Length ==> tanks[k] == old(tanks[k])
      {
        tanks[i] := tanks[i].(active := true);
      }
      assert tanks[..] == ResetAll(old(tanks[..]));
    }

    /** Enables control on every slot and changes nothing else. */
    method EnableTankControl()
      modifies tanks
      ensures tanks[..] == WithControl(old(tanks[..]), true)
    {
      for i := 0 to tanks.Length
        invariant forall k :: 0 <= k < i ==> tanks[k] == old(tanks[k]).(controlEnabled := true)
        invariant forall k :: i <= k < tanks.Length ==> tanks[k] == old(tanks[k])
      {
        tanks[i] := tanks[i].(controlEnabled := true);
      }
    }

    /** Disables control on every slot and changes nothing else. */
    method DisableTankControl()
      modifies tanks
      ensures tanks[..] == WithControl(old(tanks[..]), false)
    {
      for i := 0 to tanks.Length
        invariant forall k :: 0 <= k < i ==> tanks[k] == old(tanks[k]).(controlEnabled := false)
        invariant forall k :: i <= k < tanks.Length ==> tanks[k] == old(tanks[k])
      {
        tanks[i] := tanks[i].(controlEnabled := false);
      }
    }

    /** Shows the main menu and hides the other two panels. */
    method GoToMainMenu()
      modifies this`menuDisplay, this`gameDisplay, this`endDisplay
      ensures Displayed() == {MainMenuScreen}
    {
      menuDisplay := Flex;
      gameDisplay := None;
      endDisplay := None;
    }

    /**
     * Starts a round: spawn, reset, enable control, show the game panel.
     * On an empty roster the spawn fails and nothing after it happens.
     */
    method StartRound() returns (started: bool)
      modifies tanks, this`player1Bound, this`menuDisplay, this`gameDisplay, this`endDisplay
      ensures started <==> tanks.Length > 0
      ensures !started ==>
        player1Bound == old(player1Bound) && menuDisplay == old(menuDisplay) &&
        gameDisplay == old(gameDisplay) && endDisplay == old(endDisplay)
      ensures started ==> player1Bound && Displayed() == {GameScreen}
      ensures started ==> forall i :: 0 <= i < tanks.Length ==> tanks[i] == Tank(true, i + 1, true)
      ensures started ==> ActiveCount(tanks[..]) == tanks.Length
    {
      started := SpawnAllTanks();
      if !started {
        return;
      }
      // Camera targeting and framing are not part of this model.
      ResetAllTanks();
      EnableTankControl();
      AllActiveCount(tanks[..]);

      menuDisplay := None;
      gameDisplay := Flex;
      endDisplay := None;
    }

    /** Ends a round: disable every tank's control and show the end panel. */
    method EndRound()
      modifies tanks, this`menuDisplay, this`gameDisplay, this`endDisplay
      ensures tanks[..] == WithControl(old(tanks[..]), false)
      ensures forall i :: 0 <= i < tanks.Length ==> !tanks[i].controlEnabled
      ensures ActiveCount(tanks[..]) == ActiveCount(old(tanks[..]))
      ensures Displayed() == {EndScreen}
    {
      DisableTankControl();
      ControlKeepsTanksLeft(old(tanks[..]), false);

      menuDisplay := None;
      gameDisplay := None;
      endDisplay := Flex;
    }

    /** True when at most one tank is left, i.e. no two slots are both active. */
    method OneTankLeft() returns (oneLeft: bool)
      ensures oneLeft <==> ActiveCount(tanks[..]) <= 1
      ensures oneLeft <==>
        forall i, j :: 0 <= i < j < tanks.Length && tanks[i].active ==> !tanks[j].active
    {
      var numTanksLeft := 0;
      for i := 0 to tanks.Length
        invariant numTanksLeft == ActiveCount(tanks[..i])
      {
        assert tanks[..i + 1][..i] == tanks[..i];
        if tanks[i].active {
          numTanksLeft := numTanksLeft + 1;
        }
      }
      assert tanks[..tanks.Length] == tanks[..];
      AtMostOneActive(tanks[..]);
      oneLeft := numTanksLeft <= 1;
    }

    /**
     * The first active slot in index order, or a draw when none is active.
     * When at most one tank is left, the winner is the only active slot.
     */
    method GetRoundWinner() returns (winner: RoundWinner)
      ensures winner.Draw? <==> ActiveCount(tanks[..]) == 0
      ensures winner.WonBy? ==> winner.slot < tanks.Length && tanks[winner.slot].active
      ensures winner.WonBy? ==> forall k :: 0 <= k < winner.slot ==> !tanks[k].active
      ensures winner.WonBy? && ActiveCount(tanks[..]) <= 1 ==>
        forall k :: 0 <= k < tanks.Length && tanks[k].active ==> k == winner.slot
    {
      NoActiveIffCountZero(tanks[..]);
      AtMostOneActive(tanks[..]);
      for i := 0 to tanks.Length
        invariant forall k :: 0 <= k < i ==> !tanks[k].active
      {
        if tanks[i].active {
          return WonBy(i);
        }
      }
      return Draw;
    }
  }
}
