/**
 * The game-session state of GameScene.swift as a value, and the transition
 * that each of touchesBegan, didBegin, restartScene and the spawn and
 * move-and-remove actions makes on it.
 */
module Session {
  import opened Wrappers
  import opened Collision

  /** One touch, as the two hit-tests of touchesBegan see its location. */
  datatype Hit = Hit(onRestart: bool, onPause: bool)

  /** One body of a contact: its category and the node it is attached to. */
  datatype Body = Body(category: bv32, node: nat)

  /**
   * A wall-pair node: two pillars and, between them, the flower with the given
   * node identity while it has not been collected; moving until it is frozen.
   */
  datatype WallPair = WallPair(flower: nat, hasFlower: bool, moving: bool)

  /**
   * isGameStarted, isDied, isPaused, score, the persisted high score, the wall
   * pairs in the scene, whether the spawn loop runs, and the identity the next
   * allocated flower node gets.
   */
  datatype State = State(
    started: bool,
    died: bool,
    paused: bool,
    score: int,
    storedHigh: Option<int>,
    pairs: seq<WallPair>,
    spawning: bool,
    nextNode: nat)

  // ---------------------------------------------------------------- wall pairs

  /** The flowers still in the scene. */
  function Flowers(ps: seq<WallPair>): set<nat> {
    if ps == [] then {}
    else (if ps[0].hasFlower then {ps[0].flower} else {}) + Flowers(ps[1..])
  }

  /** The number of wall pairs that still hold their flower. */
  function FlowerCount(ps: seq<WallPair>): nat {
    if ps == [] then 0
    else (if ps[0].hasFlower then 1 else 0) + FlowerCount(ps[1..])
  }

  ghost predicate DistinctNodes(ps: seq<WallPair>) {
    forall i, j | 0 <= i < j < |ps| :: ps[i].flower != ps[j].flower
  }

  /** removeFromParent on the flower node `node`: its wall pair no longer holds it. */
  function RemoveFlower(ps: seq<WallPair>, node: nat): (r: seq<WallPair>)
    ensures |r| == |ps|
    ensures forall i | 0 <= i < |ps| :: r[i].flower == ps[i].flower && r[i].moving == ps[i].moving
    ensures forall i | 0 <= i < |ps| :: r[i].hasFlower == (ps[i].hasFlower && ps[i].flower != node)
    ensures Flowers(r) == Flowers(ps) - {node}
  {
    if ps == [] then []
    else
      var rest := RemoveFlower(ps[1..], node);
      var head := if ps[0].flower == node then ps[0].(hasFlower := false) else ps[0];
      assert ([head] + rest)[1..] == rest;
      [head] + rest
  }

  /** Speed 0 on every wall pair: each one stops, none is removed. */
  function Frozen(ps: seq<WallPair>): (r: seq<WallPair>)
    ensures |r| == |ps|
    ensures forall i | 0 <= i < |ps| :: r[i] == ps[i].(moving := false)
    ensures Flowers(r) == Flowers(ps)
  {
    if ps == [] then []
    else
      var rest := Frozen(ps[1..]);
      assert ([ps[0].(moving := false)] + rest)[1..] == rest;
      [ps[0].(moving := false)] + rest
  }

  lemma {:induction false} NotAFlower(ps: seq<WallPair>, x: nat)
    requires forall i | 0 <= i < |ps| :: ps[i].flower != x
    ensures x !in Flowers(ps)
  {
    if ps != [] {
      NotAFlower(ps[1..], x);
    }
  }

  /** With distinct node identities, the flower count is the number of distinct flowers. */
  lemma {:induction false} FlowerCountIsCardinality(ps: seq<WallPair>)
    requires DistinctNodes(ps)
    ensures FlowerCount(ps) == |Flowers(ps)|
  {
    if ps != [] {
      NotAFlower(ps[1..], ps[0].flower);
      FlowerCountIsCardinality(ps[1..]);
    }
  }

  // ------------------------------------------------------------ the invariant

  /**
   * What every reachable session satisfies: the score is not negative, the
   * spawn loop runs only in a started game, a game not started has no wall
   * pairs, and flower identities are distinct and already allocated.
   */
  ghost predicate Inv(s: State) {
    && s.score >= 0
    && (s.spawning ==> s.started)
    && (!s.started ==> s.pairs == [])
    && DistinctNodes(s.pairs)
    && (forall i | 0 <= i < |s.pairs| :: s.pairs[i].flower < s.nextNode)
  }

  /** The session createScene builds when the scene first appears. */
  function Initial(stored: Option<int>): (s: State)
    ensures Inv(s) && s.score == 0 && !s.started && !s.died && !s.paused && s.storedHigh == stored
  {
    State(false, false, false, 0, stored, [], false, 0)
  }

  // ------------------------------------------------------------ touchesBegan

  /** The first part of touchesBegan: a touch starts the game and its spawn loop. */
  function Begin(s: State): (r: State)
    ensures r.started
    ensures r.spawning == (s.spawning || !s.started)
    ensures r == s.(started := true, spawning := r.spawning)
  {
    if !s.started then s.(started := true, spawning := true) else s
  }

  /** How many upward impulses touchesBegan gives the bird. */
  function Impulses(s: State): (n: nat)
    ensures n <= 1
    ensures n == 0 <==> s.started && s.died
  {
    if !s.started then 1 else if !s.died then 1 else 0
  }

  /**
   * The high score written when the restart button is hit: raised to the
   * score when it is below it, and 0 when nothing was stored yet.
   */
  function HighAfterRestart(stored: Option<int>, score: int): (r: Option<int>)
    ensures r.Some?
    ensures stored.Some? ==> r.value >= stored.value && r.value >= score
    ensures stored.Some? ==> r.value == stored.value || r.value == score
    ensures stored.None? ==> r.value == 0
  {
    match stored
    case Some(h) => if h < score then Some(score) else stored
    case None => Some(0)
  }

  /** restartScene: every node and action is removed and the session starts over. */
  function ResetScene(s: State): (r: State)
    ensures Inv(r)
    ensures r.score == 0 && !r.died && !r.started && r.pairs == [] && !r.spawning
    ensures r.paused == s.paused && r.storedHigh == s.storedHigh && r.nextNode == s.nextNode
  {
    s.(started := false, died := false, score := 0, pairs := [], spawning := false)
  }

  /** One iteration of the per-touch loop, reading isDied afresh. */
  function TouchOne(s: State, h: Hit): (r: State)
    ensures !s.died ==> r == s.(paused := s.paused != h.onPause)
    ensures s.died && !h.onRestart ==> r == s
    ensures s.died && h.onRestart ==>
      && r.score == 0 && !r.died && !r.started && r.pairs == [] && !r.spawning
      && r.paused == s.paused && r.nextNode == s.nextNode
      && r.storedHigh == HighAfterRestart(s.storedHigh, s.score)
  {
    if s.died then
      if h.onRestart then ResetScene(s.(storedHigh := HighAfterRestart(s.storedHigh, s.score)))
      else s
    else if h.onPause then s.(paused := !s.paused)
    else s
  }

  /** The per-touch loop, over the touches in the order the set yields them. */
  function TouchLoop(s: State, ts: seq<Hit>): (r: State)
    ensures r.nextNode == s.nextNode
    ensures r.died ==> s.died
    ensures r.score == s.score || (r.score == 0 && s.died)
    ensures r.storedHigh == s.storedHigh || s.died
    decreases |ts|
  {
    if ts == [] then s else TouchLoop(TouchOne(s, ts[0]), ts[1..])
  }

  /** touchesBegan with the touches ts. */
  function TouchSpec(s: State, ts: seq<Hit>): (r: State)
    ensures r.died ==> s.died
    ensures r.started || (s.died && RestartHit(ts))
    ensures r.score == s.score || (r.score == 0 && !r.started && s.died)
  {
    TouchLoopOutcome(Begin(s), ts);
    TouchLoop(Begin(s), ts)
  }

  function PauseHits(ts: seq<Hit>): nat {
    if ts == [] then 0 else (if ts[0].onPause then 1 else 0) + PauseHits(ts[1..])
  }

  predicate Odd(n: nat) {
    n % 2 == 1
  }

  predicate RestartHit(ts: seq<Hit>) {
    exists k | 0 <= k < |ts| :: ts[k].onRestart
  }

  /** While the bird is alive, each touch on the pause button flips isPaused and nothing else changes. */
  lemma {:induction false} TouchLoopAlive(s: State, ts: seq<Hit>)
    requires !s.died
    ensures TouchLoop(s, ts) == s.(paused := s.paused != Odd(PauseHits(ts)))
    decreases |ts|
  {
    if ts != [] {
      TouchLoopAlive(TouchOne(s, ts[0]), ts[1..]);
    }
  }

  /** While the bird is dead, touches that miss the restart button change nothing. */
  lemma {:induction false} TouchLoopDead(s: State, ts: seq<Hit>)
    requires s.died && !RestartHit(ts)
    ensures TouchLoop(s, ts) == s
    decreases |ts|
  {
    if ts != [] {
      assert !RestartHit(ts[1..]) by {
        forall k | 0 <= k < |ts| - 1 ensures !ts[1..][k].onRestart {
          assert ts[1..][k] == ts[k + 1];
        }
      }
      TouchLoopDead(s, ts[1..]);
    }
  }

  /**
   * The per-touch loop restarts exactly when the bird is dead and some touch
   * hits the restart button; otherwise only isPaused can change.
   */
  lemma {:induction false} TouchLoopOutcome(s: State, ts: seq<Hit>)
    ensures var r := TouchLoop(s, ts);
      s.died && RestartHit(ts) ==>
        && r.score == 0 && !r.died && !r.started && r.pairs == [] && !r.spawning
        && r.storedHigh == HighAfterRestart(s.storedHigh, s.score) && r.nextNode == s.nextNode
    ensures var r := TouchLoop(s, ts);
      !(s.died && RestartHit(ts)) ==> r == s.(paused := r.paused)
    decreases |ts|
  {
    if ts == [] {
    } else if !s.died {
      TouchLoopAlive(s, ts);
    } else if ts[0].onRestart {
      var s1 := TouchOne(s, ts[0]);
      TouchLoopAlive(s1, ts[1..]);
    } else if RestartHit(ts) {
      var k :| 0 <= k < |ts| && ts[k].onRestart;
      assert ts[1..][k - 1] == ts[k];
      TouchLoopOutcome(s, ts[1..]);
    } else {
      TouchLoopDead(s, ts);
    }
  }

  /** Running the touch loop over a + b is running it over a, then over b. */
  lemma {:induction false} TouchLoopAppend(s: State, a: seq<Hit>, b: seq<Hit>)
    ensures TouchLoop(s, a + b) == TouchLoop(TouchLoop(s, a), b)
    decreases |a|
  {
    if a == [] {
      assert a + b == b;
    } else {
      assert (a + b)[0] == a[0] && (a + b)[1..] == a[1..] + b;
      TouchLoopAppend(TouchOne(s, a[0]), a[1..], b);
    }
  }

  /**
   * The loop re-reads isDied on every touch: after the first touch on the
   * restart button, the remaining touches of the same event reach the pause
   * test, each touch on the pause button flipping isPaused.
   */
  lemma TouchLoopRestartThenPause(s: State, pre: seq<Hit>, h: Hit, post: seq<Hit>)
    requires s.died && !RestartHit(pre) && h.onRestart
    ensures TouchLoop(s, pre + [h] + post)
      == ResetScene(s.(storedHigh := HighAfterRestart(s.storedHigh, s.score)))
           .(paused := s.paused != Odd(PauseHits(post)))
  {
    TouchLoopAppend(s, pre + [h], post);
    TouchLoopAppend(s, pre, [h]);
    TouchLoopDead(s, pre);
    TouchLoopAlive(TouchOne(s, h), post);
  }

  /**
   * A touch event restarts the session only when the bird is dead and a touch
   * lies on the restart button; then score, isDied and isGameStarted are reset,
   * the scene is emptied, and the high score is written once.
   */
  lemma TouchRestarts(s: State, ts: seq<Hit>)
    requires s.died && RestartHit(ts)
    ensures var r := TouchSpec(s, ts);
      && r.score == 0 && !r.died && !r.started && r.pairs == [] && !r.spawning
      && r.storedHigh == HighAfterRestart(s.storedHigh, s.score)
  {
    TouchLoopOutcome(Begin(s), ts);
  }

  /**
   * Without a restart, a touch event leaves the game started, with the same
   * score, pairs, high score and isDied; it starts the spawn loop if the game
   * was not started.
   */
  lemma TouchKeepsSession(s: State, ts: seq<Hit>)
    requires !(s.died && RestartHit(ts))
    ensures var r := TouchSpec(s, ts);
      && r.started && r.died == s.died && r.score == s.score && r.pairs == s.pairs
      && r.storedHigh == s.storedHigh && r.nextNode == s.nextNode
      && r.spawning == (s.spawning || !s.started)
  {
    TouchLoopOutcome(Begin(s), ts);
  }

  /** While alive, a touch event flips isPaused once per touch on the pause button. */
  lemma TouchPauseParity(s: State, ts: seq<Hit>)
    requires !s.died
    ensures TouchSpec(s, ts) == Begin(s).(paused := s.paused != Odd(PauseHits(ts)))
  {
    TouchLoopAlive(Begin(s), ts);
  }

  /** Once the game is over, touches that miss the restart button change nothing at all. */
  lemma TouchWhileDeadIsInert(s: State, ts: seq<Hit>)
    requires s.started && s.died && !RestartHit(ts)
    ensures TouchSpec(s, ts) == s
  {
    TouchLoopDead(s, ts);
  }

  /** Two touch events on the pause button in a running game restore the session. */
  lemma PauseTwiceRestores(s: State, h: Hit)
    requires s.started && !s.died && h.onPause
    ensures TouchSpec(s, [h]).paused == !s.paused
    ensures TouchSpec(TouchSpec(s, [h]), [h]) == s
  {
    TouchPauseParity(s, [h]);
    TouchPauseParity(TouchSpec(s, [h]), [h]);
  }

  lemma TouchPreservesInv(s: State, ts: seq<Hit>)
    requires Inv(s)
    ensures Inv(TouchSpec(s, ts))
  {
    if s.died && RestartHit(ts) {
      TouchRestarts(s, ts);
    } else {
      TouchKeepsSession(s, ts);
    }
  }

  // ---------------------------------------------------------------- didBegin

  /**
   * didBegin for a contact between `first` and `second`. Only isDied guards it;
   * whether the game has started is not looked at.
   */
  function ContactStep(s: State, first: Body, second: Body): (r: State)
    ensures s.died ==> r == s
    ensures Classify(first.category, second.category) == Ignored ==> r == s
    ensures !s.died && Classify(first.category, second.category) == Lethal ==>
      && r == s.(died := true, pairs := r.pairs, spawning := r.spawning)
      && |r.pairs| == |s.pairs| && Flowers(r.pairs) == Flowers(s.pairs)
      && (forall i | 0 <= i < |r.pairs| :: r.pairs[i] == s.pairs[i].(moving := false))
      && r.spawning == (s.spawning && s.pairs == [])
    ensures !s.died && Classify(first.category, second.category).Scored? ==>
      var flower := if Classify(first.category, second.category).flowerFirst then first.node else second.node;
      && r == s.(score := s.score + 1, pairs := r.pairs)
      && |r.pairs| == |s.pairs|
      && (forall i | 0 <= i < |r.pairs| ::
            r.pairs[i].flower == s.pairs[i].flower && r.pairs[i].moving == s.pairs[i].moving)
      && Flowers(r.pairs) == Flowers(s.pairs) - {flower}
  {
    if s.died then s
    else match Classify(first.category, second.category)
      case Lethal =>
        s.(died := true, pairs := Frozen(s.pairs), spawning := if s.pairs == [] then s.spawning else false)
      case Scored(flowerFirst) =>
        s.(score := s.score + 1, pairs := RemoveFlower(s.pairs, if flowerFirst then first.node else second.node))
      case Ignored => s
  }

  /** A scoring contact, in either order, removes exactly one flower when that flower is in the scene. */
  lemma ScoringRemovesOneFlower(s: State, first: Body, second: Body)
    requires Inv(s) && !s.died
    requires Classify(first.category, second.category).Scored?
    requires (if Classify(first.category, second.category).flowerFirst then first.node else second.node) in Flowers(s.pairs)
    ensures FlowerCount(ContactStep(s, first, second).pairs) == FlowerCount(s.pairs) - 1
    ensures ContactStep(s, first, second).score == s.score + 1
  {
    var r := ContactStep(s, first, second);
    FlowerCountIsCardinality(s.pairs);
    assert DistinctNodes(r.pairs);
    FlowerCountIsCardinality(r.pairs);
  }

  lemma ContactPreservesInv(s: State, first: Body, second: Body)
    requires Inv(s)
    ensures Inv(ContactStep(s, first, second))
  {
    var r := ContactStep(s, first, second);
    assert forall i | 0 <= i < |r.pairs| :: r.pairs[i].flower == s.pairs[i].flower;
  }

  // ----------------------------------------------- the spawn and move actions

  /** The spawn action: createWalls builds a moving wall pair with a new flower. */
  function SpawnStep(s: State): (r: State)
    ensures r.pairs == s.pairs + [WallPair(s.nextNode, true, true)]
    ensures r.nextNode > s.nextNode
    ensures r == s.(pairs := r.pairs, nextNode := r.nextNode)
  {
    s.(pairs := s.pairs + [WallPair(s.nextNode, true, true)], nextNode := s.nextNode + 1)
  }

  /** The move-and-remove action of wall pair i completes: the pair leaves the scene. */
  function LeaveStep(s: State, i: nat): (r: State)
    requires i < |s.pairs|
    ensures r == s.(pairs := r.pairs)
    ensures |r.pairs| == |s.pairs| - 1
    ensures forall k | 0 <= k < |r.pairs| :: r.pairs[k] == s.pairs[if k < i then k else k + 1]
  {
    s.(pairs := s.pairs[..i] + s.pairs[i + 1..])
  }

  lemma {:induction false} FlowersAppend(ps: seq<WallPair>, p: WallPair)
    ensures Flowers(ps + [p]) == Flowers(ps) + (if p.hasFlower then {p.flower} else {})
  {
    if ps != [] {
      assert (ps + [p])[1..] == ps[1..] + [p];
      FlowersAppend(ps[1..], p);
    }
  }

  /** Each spawn brings exactly one new flower into the scene. */
  lemma SpawnAddsOneFlower(s: State)
    requires Inv(s)
    ensures s.nextNode !in Flowers(s.pairs)
    ensures Flowers(SpawnStep(s).pairs) == Flowers(s.pairs) + {s.nextNode}
  {
    NotAFlower(s.pairs, s.nextNode);
    FlowersAppend(s.pairs, WallPair(s.nextNode, true, true));
  }

  lemma SpawnPreservesInv(s: State)
    requires Inv(s) && s.spawning
    ensures Inv(SpawnStep(s))
  {
  }

  lemma LeavePreservesInv(s: State, i: nat)
    requires Inv(s) && i < |s.pairs|
    ensures Inv(LeaveStep(s, i))
  {
    var r := LeaveStep(s, i);
    assert forall k | 0 <= k < |r.pairs| :: r.pairs[k] == s.pairs[if k < i then k else k + 1];
  }
}
