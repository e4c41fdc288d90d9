# Hot 'n Cold: a Dafny model

Hot 'n Cold is a hide-and-seek game played in mixed reality. A hider places a virtual
object somewhere in a scanned room. A zero-knowledge program then proves facts about that
object without revealing where it is:

- it lies on the inner side of every wall plane of the room;
- it does not collide with any piece of furniture, whose bounding boxes are public;
- every recursive step talks about the same committed object.

This project models that geometric core and the recursive plane-validation step. It also
models the smaller pieces of sequential logic in the application around it.

**Geometry and proof program** (`Zk3d`, `Structs`, `StructsProperties`, `ZkProgram`, `HotnColdTests`).

- Positions and radii are fixed-point integers. `Real64.from(r)` is the integer nearest
  r·10⁶, rounded half up as `Math.round` does.
- A plane through three points has normal n = (p₁−p₀)×(p₂−p₀) and offset d = n·p₀.
- An object (a ball with centre c and radius r) is on a plane's inner side when two things
  hold: s = n·c − d < 0 and s² > r²·(n·n). This is the exact, square-root-free form of
  "the whole ball lies strictly inside".
- A ball is outside a box when, on some axis, it lies entirely below the box's minimum or
  entirely above its maximum.
- A room checks its planes (`assertObjectIsInside`) and, separately, its boxes
  (`assertNoCollisions`); each check fails on the first violation.
- `ValidatePlanes.run` is a checked transition. It takes a public input (a plane and an
  object commitment), a witness object, a prior proof and a recursion flag.
  - The commitment hash is a parameter: any deterministic function of (cx, cy, cz, r).
  - A proof is a handle carrying its public input and whether it verifies.

The definitions of `structs`, `zk3d` and `zkprogram` are reconstructed from the fixtures
and the expected outcomes of `packages/mina/tests/hotncold.test.ts`; their exact formulas
are an assumption. Each test case there is a lemma in `HotnColdTests`.
Beside the test cases, general lemmas connect the integer predicates to their geometric
meaning over the reals:

- every point of an accepted ball is strictly inside the plane;
- a rejected ball reaches the plane;
- an accepted box test means the ball's bounding cube misses the box.

**Scene set-up** (`SceneSetup`, from `packages/mina/src/main.ts`).

- The hidden object's scale bookkeeping: the centre carries SCALE², the radius SCALE.
- Flat vertex arrays are regrouped into points.
- Element 15 of the scaled transformation matrix is forced to 1.
- One box is produced per input box.
- The object is committed once, before any box validation.

**Friends channel** (`FriendsChannel`, from `FriendsChannelProvider.tsx`). Each channel
event is a reducer from the old friends state to the new one, or to an error.
`allNotifications` is the tagged requests followed by the tagged invites.

**Worker client** (`WorkerClient`, from `zkAppWorkerClient.ts`). A class holding the table
of pending requests and the increasing request id.

**Grab physics** (`GrabPhysics`, from `GrabPhysics.tsx`). A class for the grab life cycle:
pointer down, move and up, the five-sample window, and the anchor flags.

**Lobby** (`Lobby`, from `Lobby.tsx`).

- A class for the lobby's players and flags, the channel event handlers, and the Start
  and Launch XR presses those buttons' enable predicates gate.
- Pure functions for the ready toggle, the enable predicates of the Start and Launch XR
  buttons, and the presence channel name.

**tRPC URL** (`TrpcUrl`, from `trpc/shared.ts`). The base-URL selection, with `window` and
the environment as parameters.

The commitment-mismatch message is spelled "commited", as
`packages/mina/tests/hotncold.test.ts:555` matches it.

Two modelling assumptions:

- the lobby store's `updatePlayer` is assumed to replace by username and to append when
  no player matches;
- a recursive step compares the witness's hash only with its own public input's commitment,
  not with the prior proof's public input, because the tests' base proof commits to the
  dummy object.

## Model

| member | source | states |
|---|---|---|
| Zk3d.Round | packages/mina/src/main.ts:11-16 | `Math.round` lands within half a unit of its argument, ties rounding up |
| Zk3d.FromReal | packages/mina/tests/hotncold.test.ts:10-14 | `Real64.from(x)` is within half a unit of x·10⁶ |
| Zk3d.FromRealExact | packages/mina/tests/hotncold.test.ts:10-14 | a value with at most six decimals converts exactly: FromReal(k/10⁶) = k |
| Zk3d.FromRealAdditive | packages/mina/tests/hotncold.test.ts:10-14 | conversion commutes with addition up to one unit of rounding |
| Zk3d.Sub | packages/mina/tests/hotncold.test.ts:18-33 | vector subtraction is the inverse of addition |
| Zk3d.CrossOrthogonal | packages/mina/tests/hotncold.test.ts:18-33 | the cross product is orthogonal to both of its factors |
| Zk3d.DotSub | packages/mina/tests/hotncold.test.ts:18-33 | the dot product distributes over subtraction |
| Zk3d.DotSelfNonNegative | packages/mina/tests/hotncold.test.ts:18-33 | n·n is never negative |
| Structs.FromPoints | packages/mina/tests/hotncold.test.ts:18-33 | `Plane.fromPoints` builds a plane through its first point; FromPointsContainsPoints adds the other two and DegeneratePlaneRejects the collinear case |
| Structs.FromPointsContainsPoints | packages/mina/tests/hotncold.test.ts:18-33 | all three defining points lie on the plane `fromPoints` builds |
| Structs.AssertObjectIsOnInnerSide | packages/mina/tests/hotncold.test.ts:35-69 | a pass puts the centre strictly inside; a centre on or outside the plane fails; the only failure is the plane error |
| Structs.AssertObjectIsOutside | packages/mina/tests/hotncold.test.ts:126-152 | a failure means the ball overlaps the box on all three axes, with the box error |
| Structs.AssertOnInnerSideOfAll | packages/mina/tests/hotncold.test.ts:324-341 | the fold over the planes passes iff the object is on the inner side of every plane; it fails with the plane error |
| Structs.AssertOutsideOfAll | packages/mina/tests/hotncold.test.ts:354-371 | the fold over the boxes passes iff the object is outside every box; it fails with the box error |
| Structs.AssertObjectIsInside | packages/mina/tests/hotncold.test.ts:314-342 | `Room.assertObjectIsInside` passes iff the object is on the inner side of every wall plane and otherwise fails with the plane error |
| Structs.AssertNoCollisions | packages/mina/tests/hotncold.test.ts:344-372 | `Room.assertNoCollisions` passes iff the object is outside every furniture box and otherwise fails with the box error |
| StructsProperties.LagrangeIdentity | packages/mina/tests/hotncold.test.ts:35-37 | Lagrange's identity, the algebra behind the ball-inside proofs |
| StructsProperties.CauchySchwarz | packages/mina/tests/hotncold.test.ts:35-37 | the Cauchy–Schwarz inequality for the real dot product |
| StructsProperties.InnerSideKeepsBallInside | packages/mina/tests/hotncold.test.ts:35-37 | an accepted ball lies entirely strictly inside the plane |
| StructsProperties.FootOfPerpendicularInBall | packages/mina/tests/hotncold.test.ts:99-102 | a ball whose squared distance is too small contains a point on or beyond the plane |
| StructsProperties.RejectedBallReachesPlane | packages/mina/tests/hotncold.test.ts:67-102 | a rejected ball has a point on or beyond the plane |
| StructsProperties.InnerSideIffBallInside | packages/mina/tests/hotncold.test.ts:35-102 | the integer test accepts exactly the balls whose every point is strictly inside the plane |
| StructsProperties.OutsideIffBoundingCubeMissesBox | packages/mina/tests/hotncold.test.ts:126-176 | for a well-formed box, the box test passes iff the ball's bounding cube shares no point with the box |
| StructsProperties.OutsideBoxMissesBall | packages/mina/tests/hotncold.test.ts:126-128 | a ball that passes the box test contains no point of the box |
| StructsProperties.InsideRoomKeepsBallInside | packages/mina/tests/hotncold.test.ts:324-326 | a room that accepts an object keeps every point of its ball inside every wall |
| StructsProperties.NoCollisionsKeepsBallOutOfBoxes | packages/mina/tests/hotncold.test.ts:324-326 | a room with no collisions has no box point inside the ball |
| StructsProperties.DegeneratePlaneRejects | packages/mina/tests/hotncold.test.ts:18-33 | three collinear points give a plane that rejects every object |
| StructsProperties.InnerSideSmallerRadius | packages/mina/tests/hotncold.test.ts:35-37 | shrinking an accepted ball keeps it accepted |
| ZkProgram.Run | packages/mina/tests/hotncold.test.ts:527-579 | a step succeeds iff the plane test passes and, when recursive, the witness's hash matches and the prior proof verifies; a hash mismatch in a recursive step is the commitment error |
| ZkProgram.RunAttestsBallInside | packages/mina/tests/hotncold.test.ts:558-579 | a successful step attests that the whole witness ball is inside its plane |
| ZkProgram.BaseStepIgnoresPriorAndHash | packages/mina/tests/hotncold.test.ts:505-524 | a base step does not depend on the prior proof or on the hash |
| ZkProgram.PriorPublicInputUnchecked | packages/mina/tests/hotncold.test.ts:505-579 | a recursive step does not compare the prior proof's public input |
| ZkProgram.ValidateAllPlanes | packages/mina/tests/hotncold.test.ts:569-578 | the proving loop never fails on the commitment, since every step recomputes the object's hash, and a successful loop ends with a verifying proof over the last plane; ValidateAllPlanesIffInside gives when it succeeds |
| ZkProgram.ValidateAllPlanesIffInside | packages/mina/tests/hotncold.test.ts:569-578 | the proof loop over the planes succeeds iff the object is inside every plane; its final proof is over the last plane |
| ZkProgram.ValidateAllPlanesAgreesWithRoom | packages/mina/tests/hotncold.test.ts:558-579 | the proof loop accepts exactly what `Room.assertObjectIsInside` accepts |
| ZkProgram.RunSteps | packages/mina/tests/hotncold.test.ts:558-579 | a successful chain of recursive steps ends with a verifying proof over its last public input; ChainBindsEveryWitness gives what it attests |
| ZkProgram.ChainBindsEveryWitness | packages/mina/tests/hotncold.test.ts:527-579 | in a successful chain whose inputs all carry commitment c, every witness hashes to c and is inside its plane |
| HotnColdTests.FloorPointsOutward | packages/mina/tests/hotncold.test.ts:187-203 | the floor face has the outward normal (0, 0, −10¹²) through the origin |
| HotnColdTests.FrontWallPointsOutward | packages/mina/tests/hotncold.test.ts:204-220 | the face y = 0 has an outward normal |
| HotnColdTests.LeftWallPointsOutward | packages/mina/tests/hotncold.test.ts:221-237 | the face x = 0 has an outward normal |
| HotnColdTests.RightWallPointsOutward | packages/mina/tests/hotncold.test.ts:238-254 | the face x = 1 has an outward normal |
| HotnColdTests.BackWallPointsOutward | packages/mina/tests/hotncold.test.ts:255-271 | the face y = 1 has an outward normal |
| HotnColdTests.CeilingPointsOutward | packages/mina/tests/hotncold.test.ts:272-288 | the face z = 1 has an outward normal |
| HotnColdTests.ErrorMessages | packages/mina/tests/hotncold.test.ts:552-555 | the three error kinds carry the messages the tests match, including the spelling "commited" |
| HotnColdTests.FloorCheck | packages/mina/tests/hotncold.test.ts:8-103 | against the floor plane, a radius-0.02 sphere passes iff its centre is above z = 0.02 |
| HotnColdTests.ObjectOnInnerSideAccepted | packages/mina/tests/hotncold.test.ts:8-38 | the sphere at (0.5, 0.5, 0.5) is on the inner side |
| HotnColdTests.ObjectOnOuterSideRejected | packages/mina/tests/hotncold.test.ts:40-70 | the sphere at z = −0.5 fails with the plane error |
| HotnColdTests.ObjectPartiallyOnInnerSideRejected | packages/mina/tests/hotncold.test.ts:72-103 | the sphere centred on the plane fails with the plane error |
| HotnColdTests.ObjectOutsideBoxAccepted | packages/mina/tests/hotncold.test.ts:107-129 | the sphere at (0.2, 0.2, 0.2) is outside the box [0, 0.1]³ |
| HotnColdTests.ObjectInsideBoxRejected | packages/mina/tests/hotncold.test.ts:131-153 | the sphere at (0.05, 0.05, 0.05) fails with the box error |
| HotnColdTests.ObjectPartiallyInsideBoxRejected | packages/mina/tests/hotncold.test.ts:155-177 | the sphere at the box corner fails with the box error |
| HotnColdTests.RoomFixture | packages/mina/tests/hotncold.test.ts:186-311 | the test room is the six outward cube faces and the two furniture boxes |
| HotnColdTests.CentredObjectInsideRoom | packages/mina/tests/hotncold.test.ts:314-327 | the room accepts the centred sphere |
| HotnColdTests.CentredObjectCollidesWithNothing | packages/mina/tests/hotncold.test.ts:314 | the centred sphere collides with no furniture: the second promise of the test's title, which its body (line 325) never checks |
| HotnColdTests.ObjectOutsideRoomRejected | packages/mina/tests/hotncold.test.ts:329-342 | the sphere below the floor fails the room with the plane error |
| HotnColdTests.CollidesWithCubeBox | packages/mina/tests/hotncold.test.ts:344-372 | a sphere on the diagonal near either box fails the collision check with the box error |
| HotnColdTests.ObjectCollidingWithFirstBoxRejected | packages/mina/tests/hotncold.test.ts:344-357 | the sphere in the first box fails with the box error |
| HotnColdTests.ObjectCollidingWithSecondBoxRejected | packages/mina/tests/hotncold.test.ts:359-372 | the sphere in the second box fails with the box error |
| HotnColdTests.BaseStepSucceeds | packages/mina/tests/hotncold.test.ts:505-524 | the base step on the dummy object and a dummy proof yields a verifying proof over the dummy public input |
| HotnColdTests.DifferentObjectPassesFloor | packages/mina/tests/hotncold.test.ts:545-551 | the substitute sphere at (0.75, 0.75, 0.75) would pass the plane check on its own |
| HotnColdTests.DifferentObjectRejected | packages/mina/tests/hotncold.test.ts:527-556 | a substitute with a different hash is rejected with the commitment error |
| HotnColdTests.ProvingLoopAcceptsCentredObject | packages/mina/tests/hotncold.test.ts:558-579 | the loop over the six faces succeeds, ending with a verifying proof over the ceiling |
| SceneSetup.HiddenObject | packages/mina/src/main.ts:10-17 | the centre coordinates are the real ones rounded at scale SCALE², the radius at scale SCALE |
| SceneSetup.HiddenObjectScales | packages/mina/src/main.ts:10-17 | coordinates given in micro-units have centre k·SCALE and radius kᵣ exactly |
| SceneSetup.TriplesCons | packages/mina/src/main.ts:27-35 | the first point is (v[0], v[1], v[2]) and the rest come from v[3..] |
| SceneSetup.FlattenTriples | packages/mina/src/main.ts:27-35 | regrouping loses nothing: flattening the points gives back the vertex array |
| SceneSetup.TriplesFlatten | packages/mina/src/main.ts:27-35 | regrouping a flattened list of points gives back the points |
| SceneSetup.EightCorners | packages/mina/src/main.ts:25-35 | 24 values give 8 points, the last being (v[21], v[22], v[23]) |
| SceneSetup.GroupVertices | packages/mina/src/main.ts:26-35 | the stride-3 loop produces exactly the regrouped points, in order |
| SceneSetup.MakeAffine | packages/mina/src/main.ts:42 | element 15 becomes 1 and no other element changes |
| SceneSetup.MatrixElements | packages/mina/src/main.ts:41-42 | the elements are the scaled inputs with element 15 replaced by 1 |
| SceneSetup.TransformAllAppend | packages/mina/src/main.ts:44-46 | transforming the vertices distributes over concatenation, so order is kept |
| SceneSetup.TransformAllAt | packages/mina/src/main.ts:44-46 | the length is kept and each point is transformed by the same matrix |
| SceneSetup.ConvertBox | packages/mina/src/main.ts:20-56 | one input box becomes the box built from its transformed corners and matrix |
| SceneSetup.BuildBoxes | packages/mina/src/main.ts:19-57 | exactly one converted box per input box, in input order |
| SceneSetup.RunScript | packages/mina/src/main.ts:92-127 | the object is committed first, then each box is validated against the same object |
| SceneSetup.CommitOnceBeforeValidation | packages/mina/src/main.ts:92-127 | exactly one commitment happens, and it comes before every validation |
| FriendsChannel.FilterMembership | src/components/client/providers/FriendsChannelProvider.tsx:102-121 | `filter` keeps exactly the elements that satisfy the predicate |
| FriendsChannel.FilterAppend | src/components/client/providers/FriendsChannelProvider.tsx:102-104 | `filter` distributes over concatenation, so the kept elements stay in order |
| FriendsChannel.FilterKeepsAll | src/components/client/providers/FriendsChannelProvider.tsx:119-121 | filtering with a predicate every element satisfies changes nothing |
| FriendsChannel.FriendAdded | src/components/client/providers/FriendsChannelProvider.tsx:100-116 | the requests from that username are removed and the others kept in order; exactly one friend is appended; invites are unchanged |
| FriendsChannel.FriendDeleted | src/components/client/providers/FriendsChannelProvider.tsx:117-121 | exactly the friends with that id are removed and the others kept in order; nothing changes when none matches |
| FriendsChannel.FriendRequestPending | src/components/client/providers/FriendsChannelProvider.tsx:129-148 | a missing or zero request id is the error "No request id found"; otherwise one request is appended |
| FriendsChannel.InviteSent | src/components/client/providers/FriendsChannelProvider.tsx:150-168 | an undefined game id is the error "No game id found"; otherwise one invite with the sender's fields is appended |
| FriendsChannel.InviteAccepted | src/components/client/providers/FriendsChannelProvider.tsx:186-200 | a falsy friend or game id is the error "No friend id or game id found"; the state never changes |
| FriendsChannel.AllNotifications | src/components/client/providers/FriendsChannelProvider.tsx:203-218 | there are as many notifications as requests plus invites |
| FriendsChannel.AllNotificationsLayout | src/components/client/providers/FriendsChannelProvider.tsx:203-218 | the tagged requests come first, then the tagged invites, each at its own position |
| FriendsChannel.NotificationsRoundTrip | src/components/client/providers/FriendsChannelProvider.tsx:203-218 | removing the tags gives back exactly the requests and the invites |
| FriendsChannel.PendingRequestAddsNotification | src/components/client/providers/FriendsChannelProvider.tsx:140-148 | a new request adds exactly one notification, right after the existing requests |
| WorkerClient.IdsBelowSize | apps/nextjs/src/components/client/mina/zkAppWorkerClient.ts:113-123 | the ids handed out so far number exactly nextId |
| WorkerClient.PendingCount | apps/nextjs/src/components/client/mina/zkAppWorkerClient.ts:105-124 | disjoint pending and answered ids covering every issued id leave calls minus responses pending |
| WorkerClient.ZkappWorkerClient.constructor | apps/nextjs/src/components/client/mina/zkAppWorkerClient.ts:100-103 | a new client has an empty table and nextId 0 |
| WorkerClient.ZkappWorkerClient.Call | apps/nextjs/src/components/client/mina/zkAppWorkerClient.ts:111-124 | the entry is stored under the current id (which was free), the message carries that id, and the id grows by one |
| WorkerClient.ZkappWorkerClient.OnMessage | apps/nextjs/src/components/client/mina/zkAppWorkerClient.ts:105-108 | a pending id is settled and only that entry removed; an id that is not pending is an error and changes nothing |
| WorkerClient.ZkappWorkerClient.PendingIsCallsMinusResponses | apps/nextjs/src/components/client/mina/zkAppWorkerClient.ts:105-124 | the table holds calls made minus responses handled, all under issued ids |
| GrabPhysics.CheckIfObjectHeldByPointer | apps/nextjs/src/components/xr/rapier/GrabPhysics.tsx:83-107 | the left hand is asked first; held exactly when a hand is named; not held when neither hand holds this mesh |
| GrabPhysics.Record | apps/nextjs/src/components/xr/rapier/GrabPhysics.tsx:224-231 | the new sample is last; a buffer below the bound grows by it; the bound of five is kept |
| GrabPhysics.Replay | apps/nextjs/src/components/xr/rapier/GrabPhysics.tsx:224-231 | a buffer built by recorded moves never holds more than five samples |
| GrabPhysics.ReplayIsRecentSamples | apps/nextjs/src/components/xr/rapier/GrabPhysics.tsx:225-231 | the buffer is the most recent five samples (all, while fewer), in arrival order |
| GrabPhysics.Grabbable.constructor | apps/nextjs/src/components/xr/rapier/GrabPhysics.tsx:24-32 | nothing is grabbed, anchored or set |
| GrabPhysics.Grabbable.BuffersAreRecentWindow | apps/nextjs/src/components/xr/rapier/GrabPhysics.tsx:224-231 | during a grab both buffers are equally long, at most five, and the most recent samples |
| GrabPhysics.Grabbable.PointerDown | apps/nextjs/src/components/xr/rapier/GrabPhysics.tsx:135-157 | a grab starts, with empty buffers, only with the mesh visible, no grab in progress and an intersection event |
| GrabPhysics.Grabbable.PointerUp | apps/nextjs/src/components/xr/rapier/GrabPhysics.tsx:159-182 | ignored unless the pointer matches and the object is not anchored; releases, ending the grab, only with more than one sample |
| GrabPhysics.Grabbable.HandleAnchor | apps/nextjs/src/components/xr/rapier/GrabPhysics.tsx:109-129 | anchors when a rigid body exists; a hider reports the position and ends the grab only the first time |
| GrabPhysics.Grabbable.PointerMove | apps/nextjs/src/components/xr/rapier/GrabPhysics.tsx:183-236 | ignored while anchored, without a grab or when neither hand holds this mesh; X and Y on an anchorable object anchor it; otherwise one sample is recorded |
| GrabPhysics.Grabbable.RecordSample | apps/nextjs/src/components/xr/rapier/GrabPhysics.tsx:224-231 | push then shift on both buffers keeps them the recent window of the samples |
| Lobby.Message | apps/nextjs/src/components/client/ui/lobby/Lobby.tsx:107-203 | the two lookup errors carry their exact messages |
| Lobby.ChannelName | apps/nextjs/src/components/client/ui/lobby/Lobby.tsx:126-129 | the name is "presence-lobby-" followed by the lobby id |
| Lobby.ChannelNameInjective | apps/nextjs/src/components/client/ui/lobby/Lobby.tsx:126-129 | different lobbies get different channels |
| Lobby.FindIndex | apps/nextjs/src/components/client/ui/lobby/Lobby.tsx:104 | `find` gives the first player with that username, or nothing exactly when none has it |
| Lobby.UpdatePlayerProperties | apps/nextjs/src/components/client/ui/lobby/Lobby.tsx:206-209 | after an update the player is found under its username, no other player is lost or altered, and the list grows by at most one |
| Lobby.Toggled | apps/nextjs/src/components/client/ui/lobby/Lobby.tsx:206-209 | the toggle flips `ready` and nothing else |
| Lobby.ToggleReady | apps/nextjs/src/components/client/ui/lobby/Lobby.tsx:198-209 | it fails with the player error exactly when no player has that username |
| Lobby.ToggleReadyFlipsOnlyReady | apps/nextjs/src/components/client/ui/lobby/Lobby.tsx:198-209 | with unique usernames only the named player's `ready` changes |
| Lobby.ToggleReadyTwice | apps/nextjs/src/components/client/ui/lobby/Lobby.tsx:198-209 | readying twice restores the players |
| Lobby.SetOpponentReady | apps/nextjs/src/components/client/ui/lobby/Lobby.tsx:95-114 | it fails with the opponent error exactly when the username is unknown |
| Lobby.PeerAgreesAfterToggle | apps/nextjs/src/components/client/ui/lobby/Lobby.tsx:95-114 | a peer applying the triggered toggle ends with the sender's player list |
| Lobby.InitialPlayer | apps/nextjs/src/components/client/ui/lobby/Lobby.tsx:185-192 | the first player is host iff named like the host, not ready, not in game, with the proxied image URL |
| Lobby.LobbyView.constructor | apps/nextjs/src/components/client/ui/lobby/Lobby.tsx:30-38 | the host, the lobby id and the store's players, `isMinaOn` and `starting` are taken as given; `toXR`, `launchXR` and `mounted` (Lobby.tsx:179) start false and nothing has been sent |
| Lobby.LobbyView.Mount | apps/nextjs/src/components/client/ui/lobby/Lobby.tsx:179-196 | on the first mount with a user, exactly one player is added to an empty list, host iff named like the host, and that user can then ready up; later mounts change nothing |
| Lobby.LobbyView.HandleReady | apps/nextjs/src/components/client/ui/lobby/Lobby.tsx:198-217 | the players become the toggled list and the toggle is sent; an unknown player is an error with no change |
| Lobby.LobbyView.OnReadyToggle | apps/nextjs/src/components/client/ui/lobby/Lobby.tsx:95-114 | the opponent's flag is set to the received value; an unknown username is an error with no change |
| Lobby.LobbyView.OnMinaToggle | apps/nextjs/src/components/client/ui/lobby/Lobby.tsx:115-117 | the proving option takes the received value and nothing else changes |
| Lobby.LobbyView.OnGameStarted | apps/nextjs/src/components/client/ui/lobby/Lobby.tsx:118-121 | every client starts and moves to XR |
| Lobby.LobbyView.ClickStart | apps/nextjs/src/components/client/ui/lobby/Lobby.tsx:282-290 | only the host starts, after telling the peers; for anyone else nothing changes |
| Lobby.LobbyView.PressLaunch | apps/nextjs/src/components/client/ui/lobby/Lobby.tsx:317 | pressing Launch XR sets `launchXR` |
| Lobby.LobbyView.PressStart | apps/nextjs/src/components/client/ui/lobby/Lobby.tsx:272-292 | an enabled Start (every player ready, this user the host, no start under way) starts and tells the peers; a disabled one changes nothing; afterwards Start is disabled, so the game starts at most once |
| Lobby.LobbyView.PressLaunchButton | apps/nextjs/src/components/client/ui/lobby/Lobby.tsx:302-320 | Launch XR, shown once a start is under way, sets `launchXR` only when XR is loaded and supported and it was not pressed before; afterwards it is disabled |
| TrpcUrl.GetBaseUrl | apps/nextjs/src/trpc/shared.ts:8-19 | the base is empty exactly in the browser and otherwise an http(s) URL; BrowserUsesRelativeUrl, ProductionUsesPublicHost, PreviewUsesDeploymentHost and OtherwiseUsesLocalhost give each case |
| TrpcUrl.GetUrl | apps/nextjs/src/trpc/shared.ts:21-23 | the URL is the base URL followed by "/api/trpc" |
| TrpcUrl.BrowserUsesRelativeUrl | apps/nextjs/src/trpc/shared.ts:9-23 | in a browser the base is "" and the URL is "/api/trpc" |
| TrpcUrl.ProductionUsesPublicHost | apps/nextjs/src/trpc/shared.ts:12-13 | production uses https://zkarcade.vixuslabs.com |
| TrpcUrl.PreviewUsesDeploymentHost | apps/nextjs/src/trpc/shared.ts:14-15 | preview uses "https://" and VERCEL_URL, which gives "https://undefined" when it is unset |
| TrpcUrl.OtherwiseUsesLocalhost | apps/nextjs/src/trpc/shared.ts:16-17 | otherwise localhost on PORT, or on 3000 when PORT is unset |
| TrpcUrl.ServerUrlIsAbsolute | apps/nextjs/src/trpc/shared.ts:11-18 | outside the browser the URL is absolute, and HTTPS exactly on a Vercel deployment |

## Left out

- The definitions of `structs`, `zk3d` and `zkprogram` are reconstructed from the test fixtures, so their exact formulas are an assumption.
- o1js proof generation and verification, `ValidatePlanes.compile`, `ValidatePlanesProof.dummy` and `toJSON` are not modelled: a proof is a handle with a `verifies` flag.
- The commitment hash behind `getHash` is a function parameter; collision resistance is only an assumption, mentioned where it matters.
- Field-element and `Int64` ranges and wrap-around are not modelled: all numbers are unbounded integers, because no modelled code fixes the widths.
- Floating point is not modelled: `Float32Array` conversion, `Math.round` on doubles, normalising the thumbstick ray and the release velocity are left out. `Math.round` is modelled on exact reals.
- `applyATM`, `Int64o1Box.fromVertexPointsAndATM` and the `HotnCold` contract are modelled as parameters (`applyATM`, `makeBox`) or named actions.
- The Mina local blockchain, accounts, transactions, proving, signing and the deploy call are left out; the script is modelled as the ordered list of contract calls.
- The console logging in `main.ts` is left out.
- SceneSetup.GroupVertices: requires a vertex count divisible by three. The source would read past the end and build points with undefined coordinates; every box has 24 vertices.
- The `Worker`, `postMessage`, the promises, their `reject` path and JSON messages are left out: a pending entry records the function called, and a settled one is appended to the delivered list.
- React rendering, transitions, toasts, the router, the Pusher subscription effect (and its error when subscription fails), Clerk and the three.js/Rapier calls (`setTranslation`, `setBodyType`, `resetTorques`, `resetForces`, `setPointerCapture`) are left out.
- GrabPhysics.Grabbable.PointerMove: the right controller's B button check returns early only while anchored, which the anchored check already covers; the thumbstick position adjustment after recording is left out.
- GrabPhysics: React state updates are modelled as taking effect at once. In the component, `isAnchored` and `isObjectSet` are read from the last render.
- GrabPhysics.Grabbable.PointerDown: the pointer-to-object offset and the z position it stores are never read, so they are left out.
- Lobby: the lobby store is modelled inside the component's class; the store's `updatePlayer` is assumed to replace by username and to append when no player matches.
- Lobby.LobbyView.Mount: a Clerk user whose username is null is not modelled (the username is a string), and `encodeURIComponent` is taken as already applied.
- FriendsChannel.FriendRequestPending: the request id is modelled as a number, so `Number(data.requestId)` is the identity.
- Sandbox.tsx, BuildRoom.tsx, FriendRowSkeleton.tsx, the page and layout components, AddFriend.tsx, trpc/server.ts, next.config.mjs and the database files are rendering, wiring, configuration or schema. They are not modelled.
