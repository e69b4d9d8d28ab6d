/**
 * GameScene.swift's scene object: the session flags and score it updates in
 * place, and its event handlers, each proved against the transition of the
 * same name in module Session.
 */
module Scene {
  import opened Wrappers
  import opened Collision
  import opened Session

  class GameScene {
    var isGameStarted: bool
    var isDied: bool
    var isPaused: bool
    var score: int
    /** The high score kept in persistent storage, absent until first written. */
    var storedHigh: Option<int>
    var wallPairs: seq<WallPair>
    /** Whether the repeating spawn-and-wait action runs on the scene. */
    var spawning: bool
    var nextNode: nat
    /** Upward impulses given to the bird so far. */
    ghost var flaps: nat

    function Snapshot(): State
      reads this
    {
      State(isGameStarted, isDied, isPaused, score, storedHigh, wallPairs, spawning, nextNode)
    }

    ghost predicate Valid()
      reads this
    {
      Inv(Snapshot())
    }

    /** didMove(to:): createScene on a fresh scene, with whatever high score is stored. */
    constructor (stored: Option<int>)
      ensures Valid() && Snapshot() == Initial(stored) && flaps == 0
    {
      isGameStarted, isDied, isPaused := false, false, false;
      score := 0;
      storedHigh := stored;
      wallPairs, spawning, nextNode := [], false, 0;
      flaps := 0;
    }

    /** restartScene. */
    method RestartScene()
      modifies this
      ensures Valid() && Snapshot() == ResetScene(old(Snapshot()))
      ensures flaps == old(flaps)
    {
      wallPairs := [];
      spawning := false;
      isDied := false;
      isGameStarted := false;
      score := 0;
    }

    /** touchesBegan with the touches ts, in the order the set yields them. */
    method TouchesBegan(ts: seq<Hit>)
      requires Valid()
      modifies this
      ensures Valid() && Snapshot() == TouchSpec(old(Snapshot()), ts)
      ensures flaps == old(flaps) + Impulses(old(Snapshot()))
    {
      if !isGameStarted {
        isGameStarted := true;
        spawning := true;
        flaps := flaps + 1;
      } else if !isDied {
        flaps := flaps + 1;
      }
      var i := 0;
      while i < |ts|
        invariant 0 <= i <= |ts|
        invariant Valid()
        invariant TouchLoop(Snapshot(), ts[i..]) == TouchSpec(old(Snapshot()), ts)
        invariant flaps == old(flaps) + Impulses(old(Snapshot()))
      {
        assert ts[i..][1..] == ts[i + 1..];
        var touch := ts[i];
        if isDied {
          if touch.onRestart {
            match storedHigh {
              case Some(h) =>
                if h < score {
                  storedHigh := Some(score);
                }
              case None =>
                storedHigh := Some(0);
            }
            RestartScene();
          }
        } else {
          if touch.onPause {
            if !isPaused {
              isPaused := true;
            } else {
              isPaused := false;
            }
          }
        }
        i := i + 1;
      }
    }

    /**
     * The enumeration of the wall pairs on death: each one gets speed 0, and
     * every visit also removes the scene's actions, the spawn loop among them.
     */
    method FreezeWallPairs()
      modifies this`wallPairs, this`spawning
      ensures wallPairs == Frozen(old(wallPairs))
      ensures spawning == (old(spawning) && old(wallPairs) == [])
    {
      var i := 0;
      while i < |wallPairs|
        invariant 0 <= i <= |wallPairs| == |old(wallPairs)|
        invariant forall k | 0 <= k < i :: wallPairs[k] == old(wallPairs)[k].(moving := false)
        invariant forall k | i <= k < |wallPairs| :: wallPairs[k] == old(wallPairs)[k]
        invariant spawning == (old(spawning) && i == 0)
      {
        wallPairs := wallPairs[i := wallPairs[i].(moving := false)];
        spawning := false;
        i := i + 1;
      }
      assert wallPairs == Frozen(old(wallPairs));
    }

    /** didBegin for a contact between the bodies first and second. */
    method DidBegin(first: Body, second: Body)
      requires Valid()
      modifies this
      ensures Valid() && Snapshot() == ContactStep(old(Snapshot()), first, second)
      ensures flaps == old(flaps)
    {
      ContactPreservesInv(Snapshot(), first, second);
      if !isDied {
        var a, b := first.category, second.category;
        if (a == BirdCategory && b == PillarCategory) || (a == PillarCategory && b == BirdCategory) {
          FreezeWallPairs();
          isDied := true;
        } else if a == BirdCategory && b == FlowerCategory {
          score := score + 1;
          wallPairs := RemoveFlower(wallPairs, second.node);
        } else if a == FlowerCategory && b == BirdCategory {
          score := score + 1;
          wallPairs := RemoveFlower(wallPairs, first.node);
        }
      }
    }

    /** The spawn action fires: a new wall pair with its flower is added to the scene. */
    method Spawn()
      requires Valid() && spawning
      modifies this
      ensures Valid() && Snapshot() == SpawnStep(old(Snapshot()))
      ensures flaps == old(flaps)
    {
      SpawnPreservesInv(Snapshot());
      wallPairs := wallPairs + [WallPair(nextNode, true, true)];
      nextNode := nextNode + 1;
    }

    /** The move-and-remove action of wall pair i completes. */
    method PairLeaves(i: nat)
      requires Valid() && i < |wallPairs| && wallPairs[i].moving
      modifies this
      ensures Valid() && Snapshot() == LeaveStep(old(Snapshot()), i)
      ensures flaps == old(flaps)
    {
      LeavePreservesInv(Snapshot(), i);
      wallPairs := wallPairs[..i] + wallPairs[i + 1..];
    }
  }
}
