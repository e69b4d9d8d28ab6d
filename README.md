# FluppyCat game session, in Dafny

FluppyCat is a Flappy-Bird-style game built on SpriteKit. Almost all of it is
presentation. Its one piece of game logic is the session state machine in
`GameScene`. This state machine holds:

- the flags `isGameStarted`, `isDied` and `isPaused`;
- the integer `score`;
- the high score in persistent storage, which may be absent.

Three handlers update it in place:

- `touchesBegan` starts the game or flaps the bird. It then runs a restart or
  pause hit-test for each touch.
- `didBegin` classifies a physics contact by the category bitmasks of its two
  bodies. The outcome is lethal, scoring or ignored.
- `restartScene` resets the session.

The contact vocabulary is the `CollisionBitMask` constants of
`GameElements.swift`, plus the masks given to the bird, the flower, the two
pillars and the scene's edge loop.

The project has five modules:

- `Wrappers`: the `Option` type used for the stored high score.
- `Collision`: the category bits and every body's masks. It also holds
  `Classify`, the branch that `didBegin` takes for a pair of categories.
- `Session`: the session as a value (`State`) and one transition function per
  handler, with the lemmas about them. Wall pairs are a sequence of
  `WallPair(flower, hasFlower, moving)`. A flower is known by the identity of its
  node, and `nextNode` hands out fresh identities.
- `Scene`: the class `GameScene`. Its fields are updated in place by methods
  `TouchesBegan`, `DidBegin`, `RestartScene`, `Spawn` and `PairLeaves`. Each
  method ensures that the new state is the matching `Session` transition of the
  old one. `TouchesBegan` keeps the source's per-touch loop, and
  `FreezeWallPairs` keeps the loop over the wall pairs.
- `Lifetime`: whole event sequences, and what holds after any of them.

Behaviour of the code that the model keeps on purpose:

- `didBegin` is guarded only by `isDied`; it does not look at `isGameStarted`.
  In the game no pillar or flower contact can come before the start: those
  bodies exist only inside wall pairs, and wall pairs are spawned only once the
  game has started and are all removed on restart. The model takes contacts as
  given inputs, so it also covers contacts in states the game never reaches.
- A bird/ground contact is reported by SpriteKit, but `didBegin` has no branch
  for it, so it is ignored: touching the ground does not end the game.
- On a restart touch with no high score stored yet, 0 is written, not the
  score. So a first game that scores 3 stores 0 (`ThreeFlowersThenPillar`);
  only from the second game on is the stored value raised to the score.
- On death, the spawn loop is cancelled by `removeAllActions` inside the loop
  over wall pairs, so as written it stops only when at least one pair exists
  (`DeathWithoutPairsKeepsSpawning`). In the game a pillar contact always finds
  its own pair in the scene, so the spawn loop always stops; the case without
  pairs arises only because the model takes contacts as given inputs.
- The per-touch loop re-reads `isDied`. After a restart in one iteration, later
  touches of the same event reach the pause test.
- The comparison of the high score reads the score label. The label always holds
  the decimal form of `score`, so the model uses `score`.

## Model

| member | source | states |
|---|---|---|
| Collision.CategoriesAreDistinctBits | FluppyCat/GameElements.swift:19-24 | the categories are 1, 2, 4 and 8: four distinct single bits, and any two distinct ones AND to 0 |
| Collision.BirdContactMask | FluppyCat/GameElements.swift:46-48 | the bird has category bird, and its contact mask is pillar, flower and ground; a category meets that mask exactly when it is not the bird's |
| Collision.ObstacleMasks | FluppyCat/GameElements.swift:171-200 | the flower and both pillars carry their own category and test for contact with the bird only |
| Collision.NoBodyCollides | FluppyCat/GameElements.swift:46-199 | every body of the scene, including the edge loop, has collision mask 0 |
| Collision.OnlyBirdContactsReported | FluppyCat/GameScene.swift:160-165 | among the scene's bodies, a contact is reported only when one side is the bird; the bird is reported against pillars, flower and ground |
| Collision.Classify | FluppyCat/GameScene.swift:220-263 | lethal exactly for {bird, pillar} in either order; scoring exactly for bird/flower, with the flower named as first or second body; otherwise ignored, and any non-ignored outcome involves the bird |
| Collision.ClassifySymmetric | FluppyCat/GameScene.swift:247-263 | swapping the two bodies changes only which of them is taken as the flower |
| Collision.GroundIsHarmless | FluppyCat/GameScene.swift:218-263 | bird/ground is reported but ignored, in both orders; pillar/flower is ignored |
| Session.RemoveFlower | FluppyCat/GameScene.swift:253 | removing a flower node takes exactly that node out of the set of flowers present; every pair keeps its identity and motion |
| Session.Frozen | FluppyCat/GameScene.swift:223-227 | every wall pair stops moving and nothing else changes; no pair and no flower is removed |
| Session.FlowerCountIsCardinality | FluppyCat/GameElements.swift:165-214 | with distinct flower nodes, the number of pairs holding a flower equals the number of distinct flowers |
| Session.Initial | FluppyCat/GameScene.swift:13-18 | a new scene is not started, not dead and not paused, with score 0, no wall pairs, and the stored high score as found; it satisfies the invariant |
| Session.Begin | FluppyCat/GameScene.swift:51-87 | a touch event always leaves the game started, and starts the spawn loop only when it was not started; nothing else changes |
| Session.TouchOne | FluppyCat/GameScene.swift:97-125 | one pass of the per-touch loop: while alive only a pause touch flips isPaused; while dead a touch off the restart button changes nothing, and one on it resets the session and writes the high score |
| Session.TouchLoop | FluppyCat/GameScene.swift:96-126 | the per-touch loop never kills the bird, allocates no node, and changes the score or the high score only when the bird was dead, the score then to 0 |
| Session.TouchSpec | FluppyCat/GameScene.swift:49-127 | touchesBegan never kills the bird; it leaves the game started unless the bird was dead and a touch hit restart; the score stays or, after such a restart, is 0 with the game not started |
| Session.Impulses | FluppyCat/GameScene.swift:51-94 | a touch event gives at most one impulse, and none exactly when the game is started and the bird is dead |
| Session.HighAfterRestart | FluppyCat/GameScene.swift:102-109 | a stored high score becomes the larger of it and the score; an absent one is written as 0 |
| Session.ResetScene | FluppyCat/GameScene.swift:271-278 | restart sets the score to 0, isDied and isGameStarted to false, empties the scene and stops the spawn loop, keeping isPaused and the high score; the result is a valid session from any state |
| Session.TouchLoopAlive | FluppyCat/GameScene.swift:113-125 | while alive, the per-touch loop only flips isPaused, once per touch on the pause button |
| Session.TouchLoopDead | FluppyCat/GameScene.swift:98-112 | while dead, touches that all miss the restart button change nothing |
| Session.TouchLoopAppend | FluppyCat/GameScene.swift:96-126 | looping over two runs of touches is looping over the first, then the second |
| Session.TouchLoopRestartThenPause | FluppyCat/GameScene.swift:96-126 | after the first restart touch of an event, the later touches reach the pause test: the session is reset, the high score written once, and isPaused flipped once per later pause touch |
| Session.TouchLoopOutcome | FluppyCat/GameScene.swift:96-126 | the loop restarts exactly when the bird is dead and some touch hits restart; otherwise only isPaused may change |
| Session.TouchRestarts | FluppyCat/GameScene.swift:99-110 | a restart touch while dead resets score, isDied, isGameStarted, the wall pairs and the spawn loop, and writes the high score once |
| Session.TouchKeepsSession | FluppyCat/GameScene.swift:49-94 | without a restart, a touch event leaves the game started with the same score, isDied, pairs and high score; it starts the spawn loop only if the game was not started |
| Session.TouchPauseParity | FluppyCat/GameScene.swift:114-124 | while alive, a touch event flips isPaused once per touch on the pause button, including the touch that starts the game |
| Session.TouchWhileDeadIsInert | FluppyCat/GameScene.swift:88-112 | in a started game with the bird dead, a touch event that misses restart changes nothing, neither isPaused nor anything else |
| Session.PauseTwiceRestores | FluppyCat/GameScene.swift:115-124 | in a running game, one pause touch flips isPaused and a second restores the whole session |
| Session.TouchPreservesInv | FluppyCat/GameScene.swift:49-127 | touchesBegan keeps the session invariant |
| Session.ContactStep | FluppyCat/GameScene.swift:213-265 | while dead, or for an ignored pair, nothing changes. A lethal contact sets isDied, keeps the score, freezes every pair in place without removing any, and stops the spawn loop only if some pair exists. A scoring contact adds exactly 1, removes that flower, keeps every pair's identity and motion, and changes nothing else |
| Session.ScoringRemovesOneFlower | FluppyCat/GameScene.swift:247-263 | a scoring contact in either order removes exactly one flower from the scene |
| Session.ContactPreservesInv | FluppyCat/GameScene.swift:213-265 | didBegin keeps the session invariant |
| Session.SpawnStep | FluppyCat/GameScene.swift:65-69 | the spawn action appends one moving wall pair with a flower under a fresh node identity; nothing else changes |
| Session.LeaveStep | FluppyCat/GameScene.swift:80-82 | the pair whose move completes leaves the scene; the others keep their order and nothing else changes |
| Session.SpawnAddsOneFlower | FluppyCat/GameElements.swift:163-219 | the new flower was not in the scene before, and it is the only flower added |
| Session.SpawnPreservesInv | FluppyCat/GameScene.swift:65-75 | the spawn action keeps the session invariant |
| Session.LeavePreservesInv | FluppyCat/GameScene.swift:80-82 | a wall pair leaving at the end of its move keeps the session invariant |
| Scene.GameScene.constructor | FluppyCat/GameScene.swift:35-37 | the scene starts in the initial session with no impulse given |
| Scene.GameScene.RestartScene | FluppyCat/GameScene.swift:271-278 | the fields become the reset session |
| Scene.GameScene.TouchesBegan | FluppyCat/GameScene.swift:49-127 | the per-touch loop leaves the fields equal to the touch transition, and the impulses given match Impulses |
| Scene.GameScene.FreezeWallPairs | FluppyCat/GameScene.swift:223-227 | the enumeration freezes every pair, and the spawn loop stops only if the enumeration visited some pair |
| Scene.GameScene.DidBegin | FluppyCat/GameScene.swift:213-265 | the fields become the contact transition of the old ones, and the invariant is kept |
| Scene.GameScene.Spawn | FluppyCat/GameScene.swift:65-69 | the fields become the spawn transition |
| Scene.GameScene.PairLeaves | FluppyCat/GameScene.swift:80-82 | the moving pair i is removed and nothing else changes |
| Lifetime.Step | FluppyCat/GameScene.swift:49-278 | only a touch event changes isGameStarted, isPaused or the high score; only a contact kills the bird; a spawn or a pair leaving changes only the wall pairs and node allocation |
| Lifetime.StepPreservesInv | FluppyCat/GameScene.swift:13-18 | every event keeps the session invariant |
| Lifetime.RunPreservesInv | FluppyCat/GameScene.swift:18 | after any event sequence from a valid session, the invariant holds and the score is not negative |
| Lifetime.StepScore | FluppyCat/GameScene.swift:251-276 | an event changes the score by +1, only on a contact, or to 0, only on a touch event that restarts while dead |
| Lifetime.StepHighScore | FluppyCat/GameScene.swift:99-110 | the high score changes only on a touch event that restarts while dead, and then to the value of the restart branch |
| Lifetime.HighScoreNeverDecreases | FluppyCat/GameScene.swift:102-109 | once a high score is stored, no event sequence removes it or lowers it |
| Lifetime.DeathWithoutPairsKeepsSpawning | FluppyCat/GameScene.swift:223-228 | as the enumeration is written, a lethal contact with no wall pair in the scene would leave the spawn loop running; the game never reaches this case, since a pillar contact needs its pair in the scene |
| Lifetime.ThreeFlowersThenPillar | FluppyCat/GameScene.swift:96-110 | start, three flowers and a pillar, then a restart touch: score 0, not started, not dead, no pairs; a stored 1 becomes 3, an absent high score becomes 0 |

## Left out

- Rendering: labels, textures, the logo, the restart- and pause-button
  animations, the bird's wing animation and its death spin. These are
  presentation over SpriteKit.
- Physics: velocity, impulses, gravity, and whether SpriteKit reports a
  contact. Contacts are input events. The impulses are only the ghost counter
  `flaps`. Setting both collision masks to 0 on death is not modelled, because
  every mask is already 0 (`Collision.NoBodyCollides`).
- Scheduling: when the spawn timer fires and when a wall pair's move completes.
  These are events (`Spawn`, `PairLeaves`) that the engine delivers only while
  the spawn loop runs or the pair moves. The engine also delivers no timer or
  contact events while the scene is paused. The model does not enforce this
  suspension, and neither does the game's own code.
- Touch locations: each touch is two booleans, on the restart button and on the
  pause button. The button geometry is not modelled. A touch set is taken in
  some iteration order, since Swift's `Set` gives none.
- Background scrolling in `update`: floating-point geometry.
- Random pillar gap and vertical offset in `createWalls`: floating point with
  `arc4random`.
- Persistent storage I/O: the stored high score is an `Option<int>` field. The
  model does not capture that it is written as the score label's string, nor the
  high-score label shown at scene creation.
- Node identities: each spawned wall pair gets one fresh identity, that of its
  flower, from the counter `nextNode`. The pillar and wall-pair nodes have no
  identity of their own.
- `GameViewController.swift` (view bootstrapping) and `FCConstants.swift`
  (asset names) are not part of this model.
