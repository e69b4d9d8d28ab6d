/**
 * Whole runs of the game: the events the scene receives over the life of the
 * process, and what holds after any sequence of them.
 */
module Lifetime {
  import opened Wrappers
  import opened Collision
  import opened Session

  datatype Event =
    | Touches(hits: seq<Hit>)
    | Contact(first: Body, second: Body)
    | SpawnTimer
    | PairLeaves(index: nat)

  /**
   * The transition for one event. The engine fires the spawn action only while
   * it runs and completes a pair's move only while that pair moves; any other
   * delivery of those two events leaves the session as it is. Contacts are
   * taken as given: the model does not ask that a pillar or flower body
   * exist in the scene when one is reported.
   */
  function Step(s: State, e: Event): (r: State)
    ensures !e.Touches? ==> r.started == s.started && r.paused == s.paused && r.storedHigh == s.storedHigh
    ensures !e.Contact? ==> r.died ==> s.died
    ensures e.Contact? ==> r.nextNode == s.nextNode
    ensures (e.SpawnTimer? || e.PairLeaves?) ==> r == s.(pairs := r.pairs, nextNode := r.nextNode)
  {
    match e
    case Touches(hits) => TouchSpec(s, hits)
    case Contact(first, second) => ContactStep(s, first, second)
    case SpawnTimer => if s.spawning then SpawnStep(s) else s
    case PairLeaves(i) => if i < |s.pairs| && s.pairs[i].moving then LeaveStep(s, i) else s
  }

  function Run(s: State, es: seq<Event>): State
    decreases |es|
  {
    if es == [] then s else Run(Step(s, es[0]), es[1..])
  }

  lemma StepPreservesInv(s: State, e: Event)
    requires Inv(s)
    ensures Inv(Step(s, e))
  {
    match e
    case Touches(hits) => TouchPreservesInv(s, hits);
    case Contact(first, second) => ContactPreservesInv(s, first, second);
    case SpawnTimer => if s.spawning { SpawnPreservesInv(s); }
    case PairLeaves(i) => if i < |s.pairs| && s.pairs[i].moving { LeavePreservesInv(s, i); }
  }

  /** Every session reachable from the first scene keeps the invariant; in particular its score is never negative. */
  lemma {:induction false} RunPreservesInv(s: State, es: seq<Event>)
    requires Inv(s)
    ensures Inv(Run(s, es)) && Run(s, es).score >= 0
    decreases |es|
  {
    if es != [] {
      StepPreservesInv(s, es[0]);
      RunPreservesInv(Step(s, es[0]), es[1..]);
    }
  }

  /**
   * The score moves only by one up, on a contact, or back to 0, on a touch
   * event that restarts the session.
   */
  lemma StepScore(s: State, e: Event)
    ensures var r := Step(s, e);
      || r.score == s.score
      || (e.Contact? && r.score == s.score + 1)
      || (e.Touches? && r.score == 0 && s.died && RestartHit(e.hits))
  {
    if e.Touches? {
      if s.died && RestartHit(e.hits) {
        TouchRestarts(s, e.hits);
      } else {
        TouchKeepsSession(s, e.hits);
      }
    }
  }

  /**
   * The high score changes only on a touch event that restarts the session,
   * and then to the value the restart branch writes.
   */
  lemma StepHighScore(s: State, e: Event)
    ensures var r := Step(s, e);
      r.storedHigh == s.storedHigh
      || (e.Touches? && s.died && RestartHit(e.hits)
          && r.storedHigh == HighAfterRestart(s.storedHigh, s.score))
  {
    if e.Touches? {
      if s.died && RestartHit(e.hits) {
        TouchRestarts(s, e.hits);
      } else {
        TouchKeepsSession(s, e.hits);
      }
    }
  }

  /** Once a high score is stored, no sequence of events lowers it or removes it. */
  lemma {:induction false} HighScoreNeverDecreases(s: State, es: seq<Event>)
    requires s.storedHigh.Some?
    ensures Run(s, es).storedHigh.Some? && Run(s, es).storedHigh.value >= s.storedHigh.value
    decreases |es|
  {
    if es != [] {
      StepHighScore(s, es[0]);
      HighScoreNeverDecreases(Step(s, es[0]), es[1..]);
    }
  }

  /**
   * As the enumeration is written, a lethal contact stops the spawn loop only
   * when some wall pair is in the scene: with none, the loop would go on after
   * the bird has died. In the game this case does not arise, since pillar
   * bodies exist only inside wall pairs that are children of the scene, so a
   * pillar contact always finds at least one pair to visit.
   */
  lemma DeathWithoutPairsKeepsSpawning(s: State)
    requires Inv(s) && s.started && !s.died && s.pairs == []
    ensures var r := Step(s, Contact(Body(BirdCategory, 0), Body(PillarCategory, 1)));
      r.died && r.spawning == s.spawning
    ensures var r := Step(s, Contact(Body(BirdCategory, 0), Body(PillarCategory, 1)));
      r.spawning ==> Step(r, SpawnTimer).pairs != []
  {
  }

  /**
   * A first game that ends with score 3: a stored high score of 1 is raised to
   * 3, an absent one is written as 0, and the session is back at its start.
   */
  lemma ThreeFlowersThenPillar(stored: Option<int>)
    requires stored == Some(1) || stored == None
    ensures var r := Run(Initial(stored), Game());
      && r.score == 0 && !r.started && !r.died && r.pairs == []
      && r.storedHigh == (if stored == Some(1) then Some(3) else Some(0))
  {
    var es := Game();
    var s4 := State(true, false, false, 0, stored, Spawned(true), true, 3);
    var s7 := State(true, false, false, 3, stored, Spawned(false), true, 3);
    GameOpening(stored);
    GameScoring(stored);
    var s8 := Step(s7, es[7]);
    assert s8.died && s8.score == 3 && s8.storedHigh == stored;
    assert RestartHit(es[8].hits) by {
      assert es[8].hits[0].onRestart;
    }
    TouchRestarts(s8, es[8].hits);
    RunStep(s7, es, 7); RunStep(s8, es, 8);
    assert es[9..] == [];
  }

  /** The three wall pairs spawned in the game, each with its flower or without. */
  function Spawned(withFlowers: bool): seq<WallPair> {
    [WallPair(0, withFlowers, true), WallPair(1, withFlowers, true), WallPair(2, withFlowers, true)]
  }

  lemma GameOpening(stored: Option<int>)
    ensures Run(Initial(stored), Game())
      == Run(State(true, false, false, 0, stored, Spawned(true), true, 3), Game()[4..])
  {
    var es := Game();
    var s0 := Initial(stored);
    var s1 := Step(s0, es[0]);
    TouchKeepsSession(s0, es[0].hits);
    TouchPauseParity(s0, es[0].hits);
    assert s1 == s0.(started := true, spawning := true);
    var s2 := Step(s1, es[1]);
    var s3 := Step(s2, es[2]);
    var s4 := Step(s3, es[3]);
    assert s4 == State(true, false, false, 0, stored, Spawned(true), true, 3);
    RunStep(s0, es, 0); RunStep(s1, es, 1); RunStep(s2, es, 2); RunStep(s3, es, 3);
    assert es[0..] == es;
  }

  lemma GameScoring(stored: Option<int>)
    ensures Run(State(true, false, false, 0, stored, Spawned(true), true, 3), Game()[4..])
      == Run(State(true, false, false, 3, stored, Spawned(false), true, 3), Game()[7..])
  {
    var es := Game();
    var s4 := State(true, false, false, 0, stored, Spawned(true), true, 3);
    var s5 := Step(s4, es[4]);
    assert s5.pairs == [WallPair(0, false, true), WallPair(1, true, true), WallPair(2, true, true)];
    var s6 := Step(s5, es[5]);
    assert s6.pairs == [WallPair(0, false, true), WallPair(1, false, true), WallPair(2, true, true)];
    var s7 := Step(s6, es[6]);
    assert s7.pairs == Spawned(false);
    assert s7 == State(true, false, false, 3, stored, Spawned(false), true, 3);
    RunStep(s4, es, 4); RunStep(s5, es, 5); RunStep(s6, es, 6);
  }

  function Game(): seq<Event> {
    [ Touches([Hit(false, false)]),
      SpawnTimer, SpawnTimer, SpawnTimer,
      Contact(Body(BirdCategory, 100), Body(FlowerCategory, 0)),
      Contact(Body(FlowerCategory, 1), Body(BirdCategory, 100)),
      Contact(Body(BirdCategory, 100), Body(FlowerCategory, 2)),
      Contact(Body(PillarCategory, 101), Body(BirdCategory, 100)),
      Touches([Hit(true, false)]) ]
  }

  lemma RunStep(s: State, es: seq<Event>, i: nat)
    requires i < |es|
    ensures Run(s, es[i..]) == Run(Step(s, es[i]), es[i + 1..])
  {
    assert es[i..][0] == es[i] && es[i..][1..] == es[i + 1..];
  }
}
