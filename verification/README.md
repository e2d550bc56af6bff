# Duell verification

Models of the engines of the Duell web app and its call core, with what they promise proved over all inputs and all
runs. `dafny verify dfyconfig.toml` checks everything.

- **Collab**: two or more editors of one document. Last writer wins per field, stickers with permanent tombstones, a
  coalescing outbox, full-state repair and a token bucket. `CollabState`, `CollabRuns`, `CollabExchange`,
  `CollabOutbox`, `CollabPace`; the object itself is `CollabReplica.Replica`.
- **Mpoker**: the card table's joint deal. The field of 2^255 - 19 (section 4.1 of RFC 7748) in place on arrays of
  sixteen limbs (`Bits32`, `FieldLimbs`, `FieldArrays`, `FieldLadder`, `FieldMontgomery`), scalars (`Modular`), the
  primality of the field's modulus and of the base point's order (`Primality`, `FieldPrime`, `LPrime`), Fermat's theorem
  (`Fermat`) and the protocol of shuffles and locks (`MpokerDeal`, `MpokerVerify`).
- **Doko**: the Doppelkopf rules (`DokoCards`, `DokoRules`, `DokoGame`, `DokoRuns`, `DokoCalls`, `DokoScore`,
  `DokoAudit`, `DokoProgress`, `DokoAuto`).
- **Call**: one side of a call as a state machine with a step at every await (`CallSession`), and both sides over a
  channel that loses, repeats and reorders (`CallPair`).
- **Arcade**: sliding discs in place (`Discs`), the turn games and their lockstep (`TurnGames`, `TurnSide`,
  `TurnLockstep`) and when it breaks (`TurnParting`), the end of a match (`MatchEnd`), and the ball of Puck-Duell,
  Stangen-Kick and Flipper-Duell with its one owner (`BallPhysics`, `BallToken`).
- **Bauernskat**: rules, runs, progress and audit (`BauernskatRules`, `BauernskatRuns`, `BauernskatAudit`,
  `BauernskatReplay`).
- **Malrat**: simplifying, rounding and packing a drawing (`MalratSimplify`, `MalratText`, `MalratDraw`).
- **Biz**: Easter, holidays and deadlines (`Biz`).

`Options`, `Reals`, `Pigeonhole` and `TextOrder` hold what the others share.

Conventions. Clocks, random numbers, seeds, networks, media and what a peer connection answers are parameters, chosen
freely. Geometry and physics are over exact reals; the square root is a parameter `root` with `IsRoot(root)`. Limbs are
integers that are shown to stay exact in a Float64. Text filters and shape checks of the editor are the parameter
`rules`. Strings of tagged values (cards, phases, message types) are datatypes.

Where the code and its comments differ the code is modelled:

- `collab.js:16` says two honest peers never reach MAX_IDS. Two editors apart for long enough do
  (`LocalLimitIsNotEnough`); `ExchangeConverges` gives the exact condition.
- `arcade2.js:420` sends a throw uncut while `arcade2.js:431` refuses speeds above VMAX*1.001, and `arcade-ui.js:419-422`
  passes the finger's speed on as it is. `AgreeIff` shows on all runs that the boards of the two phones can come to agree
  if and only if no throw was faster than that; `FastStart` and `FastOnes` give throws that are.
- `biz.js:29` says Gregorian Easter Sunday of any year; `EasterIsSunday` gives the years from 0 on for which it is.
- `arcade2.js:165` divides by the ball's speed. A ball that meets a bumper at speed zero has no number for a speed after
  that (`RestIsLost`): its reports are turned down and it lies at the bumpers until HOLD gives the token away
  (`OthersAreTaken`, `LostBall`). `OneOwner` holds on these runs too.
- `doko.js:82` cuts any number to 32 bits and takes its remainder as dealer. `DealerMustSit` shows that a negative
  remainder never gets past the reservations; large numbers can wrap round to one, and negative ones to a seat
  (`DealerWraps`). The other theorems start from a dealer who sits at the table.
- `doko.js:196` says a call above Re or Kontra may only come while the first one could. `apply` does not ask that:
  `HigherCallAfterTheFirst` shows a hand, `HigherCallAlone` the exact condition.
- `call-core.js:254` may arm a timer after the end; its callback is shown to do nothing.

## Model

| member | source | states |
|---|---|---|
| `TextOrder.ReadDecimal` | apps/duell-web/src/collab.js:76-77 | reading the number at the front of a sticker id gives back the number written there, so the birth of an id is well defined |
| `CollabState.WinsTransitive` | apps/duell-web/src/collab.js:73-73 | last-writer-wins by (clock, actor) is transitive |
| `CollabState.WinsTotal` | apps/duell-web/src/collab.js:73-73 | two different stamps: one of them wins |
| `CollabState.AppliedReflects` | apps/duell-web/src/collab.js:127-157 | one accepted op turns the outcome of a set of ops into the outcome of that set and the op, for fields, stickers and tombstones alike |
| `CollabState.OneOutcome` | apps/duell-web/src/collab.js:73-170 | the set of ops known decides fields, live stickers and dead ids, whatever the order, grouping or repetition they came in |
| `CollabState.Sorted` | apps/duell-web/src/collab.js:76-77 | the order by birth lists every id of a set exactly once |
| `CollabState.OneOrder` | apps/duell-web/src/collab.js:76-77 | two lists of the same ids, each sorted by `byBirth`, are the same list, so sorting does not depend on the order of the keys |
| `CollabState.ShowsVisible` | apps/duell-web/src/collab.js:91-91 | whatever order the sticker keys come in, sorting them and taking the first MAX_STICKERS gives the one list `Visible` |
| `CollabState.SameVisible` | apps/duell-web/src/collab.js:91-91 | editors with the same stickers show the same list, each from its own order of the keys |
| `CollabRuns.StepKeeps` | apps/duell-web/src/collab.js:80-170 | every local edit and every arrival on any editor keeps: states are outcomes of the ops known there, stamps are used once, ids are given out once |
| `CollabRuns.StickerIdInjective` | apps/duell-web/src/collab.js:180-194 | ids made from a clock value and an actor are never made twice |
| `CollabRuns.EditedIsApplied` | apps/duell-web/src/collab.js:93-105 | writing a local op is the same as receiving it: it carries the newest stamp and touches no tombstone |
| `CollabRuns.RunKeeps` | apps/duell-web/src/collab.js:80-170 | the invariant holds after every run of any number of editors with loss, repetition and reordering |
| `CollabRuns.Convergence` | apps/duell-web/src/collab.js:73-170 | in every run two editors that made or accepted the same ops hold the same document and show the same list, each from its own order of the keys |
| `CollabRuns.DeadStaysDead` | apps/duell-web/src/collab.js:101-105 | on every run a dead sticker id stays dead and never comes back |
| `CollabRuns.CountKept` | apps/duell-web/src/collab.js:143-150 | only an unknown id raises the id count, and by one |
| `CollabExchange.FullArrives` | apps/duell-web/src/collab.js:106-157 | with room for all ids no op of a full state is refused, in whatever order the full state arrives |
| `CollabExchange.Capped` | apps/duell-web/src/collab.js:143-150 | however crowded it gets, a receiver forgets no id and never holds more than MAX_IDS |
| `CollabExchange.ExchangeConverges` | apps/duell-web/src/collab.js:106-170 | two honest editors that send each other `fullOps` end with equal state exactly when their ids together fit into MAX_IDS |
| `CollabExchange.EditorsExchange` | apps/duell-web/src/collab.js:80-170 | any two editors of any run that keep to the rules on their own edits: after the exchange of full states they agree exactly when their ids together fit into MAX_IDS |
| `CollabExchange.LocalLimitIsNotEnough` | apps/duell-web/src/collab.js:15-16 | the limit LOCAL_IDS on each side does not keep two honest editors below MAX_IDS: for any two actors and any values the shape check takes there is a run in which each puts stickers within its own limit, together over MAX_IDS, and the exchange leaves different documents |
| `CollabOutbox.SameMeaning` | apps/duell-web/src/collab.js:88-112 | for every state, being the outcome of what was sent is the same as being the outcome of everything ever queued |
| `CollabOutbox.DrainedPeer` | apps/duell-web/src/collab.js:293-302 | a peer that got the drained queue is where it would be with every op ever queued, and shows the same list |
| `CollabOutbox.StandsQueued` | apps/duell-web/src/collab.js:88-88 | replacing the pending op of a key loses nothing |
| `CollabOutbox.StandsKilled` | apps/duell-web/src/collab.js:101-105 | taking a sticker's pending op out of the outbox loses nothing: the tombstone stands for it |
| `CollabOutbox.StandsTaken` | apps/duell-web/src/collab.js:293-302 | moving an op from the outbox to the wire loses nothing |
| `CollabPace.Spend` | apps/duell-web/src/collab.js:240-250 | what an event sends comes out of the token bucket as refilled since |
| `CollabPace.MinuteBound` | apps/duell-web/src/collab.js:17-19 | any 60 seconds hold at most 106 frames plus two per `connected()`, hence at most 120 with up to seven reconnects |
| `CollabReplica.Replica.Queue` | apps/duell-web/src/collab.js:88-88 | the key is pending, in `order`, and holds the new op; nothing else changes |
| `CollabReplica.Replica.SetLocal` | apps/duell-web/src/collab.js:93-96 | the field carries the new stamp, its op is queued, and everything queued is still stood for |
| `CollabReplica.Replica.PutSticker` | apps/duell-web/src/collab.js:97-100 | the same for a sticker |
| `CollabReplica.Replica.Kill` | apps/duell-web/src/collab.js:101-105 | the sticker is dead, its pending op is replaced by the tombstone's |
| `CollabReplica.Replica.Apply` | apps/duell-web/src/collab.js:127-159 | accepts exactly the ops the checks allow and then is the specification's state; a refused op changes nothing |
| `CollabReplica.Replica.Write` | apps/duell-web/src/collab.js:132-153 | an op that passed the checks, written in place: the newer stamp wins, a dead id takes nothing, a tombstone removes the sticker |
| `CollabReplica.Replica.ReceiveOps` | apps/duell-web/src/collab.js:269-276 | a frame's ops applied one after the other, refused ones counted |
| `CollabReplica.Replica.FullOps` | apps/duell-web/src/collab.js:106-112 | lists every field, sticker and tombstone of the state, each exactly once |
| `CollabReplica.Replica.Showing` | apps/duell-web/src/collab.js:91-91 | sorts the sticker keys as they come and returns the one list `Visible` |
| `CollabReplica.Replica.AsksFull` | apps/duell-web/src/collab.js:166-170 | requeues exactly the full state when digests differ and the last time is two seconds back or more, and changes nothing otherwise; the outbox still stands for all that was queued |
| `CollabReplica.Replica.TakeOps` | apps/duell-web/src/collab.js:293-302 | a frame respects MAX_OPS and the byte budget; the queue loses a piece of its front and just the ops waiting there, the rest stays; it takes something exactly when the first op fits into an empty frame |
| `CollabReplica.Replica.DrainTo` | apps/duell-web/src/collab.js:269-302 | frame after frame to the other editor: when every op fits and none is refused the queue empties and the other one ends with the outcome of every op ever queued here |
| `CollabReplica.Replica.Tick` | apps/duell-web/src/collab.js:240-250 | sends at most one frame and spends a token exactly when it does; otherwise only the refill changes |
| `CollabReplica.Replica.Connected` | apps/duell-web/src/collab.js:237-237 | raises the tokens to two, owes a hello and ticks: a frame it sends is the hello, and queue and outbox stay as they are |
| `Bits32.XorTwice` | apps/duell-web/src/mpoker.js:16-16 | the 32-bit exclusive or undoes itself |
| `Bits32.AndLow` | apps/duell-web/src/mpoker.js:23-27 | masking the low bits is the remainder, also of a negative number |
| `FieldLimbs.CarriedValue` | apps/duell-web/src/mpoker.js:15-15 | a carry pass changes the number by a multiple of 2p, so the field element stays |
| `FieldLimbs.SecondPass` | apps/duell-web/src/mpoker.js:38-38 | two passes leave every limb in sixteen bits but for the lowest one, off by 38 at most |
| `FieldLimbs.ThirdPass` | apps/duell-web/src/mpoker.js:20-20 | three passes leave sixteen-bit limbs throughout |
| `FieldArrays.Car` | apps/duell-web/src/mpoker.js:15-15 | in place: the limbs become those of one carry pass, every intermediate an exact Float64 integer |
| `FieldArrays.Sel` | apps/duell-web/src/mpoker.js:16-16 | swaps the two arrays when b is 1 and leaves them when b is 0; every operand fits 32 bits |
| `FieldArrays.A` | apps/duell-web/src/mpoker.js:30-30 | the limbwise sum, also when an operand is the target, and its field element |
| `FieldArrays.Z` | apps/duell-web/src/mpoker.js:31-31 | the limbwise difference and its field element |
| `FieldArrays.Product` | apps/duell-web/src/mpoker.js:32-35 | the 31 columns of the school multiplication stand for the product of the two numbers, each exact in a Float64 |
| `FieldArrays.M` | apps/duell-web/src/mpoker.js:33-39 | the target holds the product modulo p in reduced limbs, also when it is an operand |
| `FieldPrime.FieldIsPrime` | apps/duell-web/src/mpoker.js:21-26 | 2^255 - 19, the modulus of the limbs, is prime |
| `Fermat.LittleTheorem` | apps/duell-web/src/mpoker.js:41-41 | for every prime p and every a that p does not divide, the (p-1)th power of a is 1 modulo p |
| `FieldLadder.PowInverts` | apps/duell-web/src/mpoker.js:41-41 | the (p-2)th power of every field element but zero is its inverse |
| `FieldLadder.Inv` | apps/duell-web/src/mpoker.js:41-41 | the target holds the (p-2)th power of the operand modulo p, which is its inverse, or zero for zero |
| `FieldLadder.SubtractP` | apps/duell-web/src/mpoker.js:22-25 | one round of the borrow loop: p taken off, and the returned bit is 1 exactly when that went below zero |
| `FieldLadder.TakeP` | apps/duell-web/src/mpoker.js:21-26 | p is taken off exactly when nothing negative remains |
| `FieldLadder.Pack` | apps/duell-web/src/mpoker.js:17-28 | writes the bytes of the one representative in [0, p) |
| `FieldMontgomery.OneBit` | apps/duell-web/src/mpoker.js:47-51 | one ladder rung in place equals the rung formulas on field elements; limb bounds carry on to the next rung |
| `FieldMontgomery.Climb` | apps/duell-web/src/mpoker.js:46-52 | all 255 rungs, with every limb bound kept |
| `FieldMontgomery.Ladder` | apps/duell-web/src/mpoker.js:43-55 | the 32 bytes are the canonical form of x divided by z, for the x and z the ladder formulas give: times z it is x, and for z = 0 it is 0 |
| `Modular.InvL` | apps/duell-web/src/mpoker.js:61-61 | the loop computes the first Bezout factor modulo m, with BigInt's truncating remainder |
| `Modular.InvIsInverse` | apps/duell-web/src/mpoker.js:61-61 | the result times the argument is 1 exactly when the argument has an inverse at all |
| `Primality.PrimeByOrder` | apps/duell-web/src/mpoker.js:12-12 | a number with an element of a prime order above its square root is prime: the powers are too many for a smaller divisor |
| `LPrime.OrderIsPrime` | apps/duell-web/src/mpoker.js:12-12 | the order L of the base point is prime, by a chain of such elements |
| `MpokerVerify.KeysInvert` | apps/duell-web/src/mpoker.js:61-61 | for every key from 1 to L-1 `invL` gives a true inverse modulo L |
| `Modular.PrimeUnit` | apps/duell-web/src/mpoker.js:61-61 | modulo a prime order every key but zero has an inverse |
| `MpokerDeal.TimesPoint` | apps/duell-web/src/mpoker.js:65-65 | multiplying a point does not mind the sign the x coordinate leaves open |
| `MpokerDeal.KeysCancel` | apps/duell-web/src/mpoker.js:82-83 | after all locks the shuffle keys are gone |
| `MpokerDeal.KeyProductIs` | apps/duell-web/src/mpoker.js:85-89 | the product of the position keys is what the position is locked with |
| `MpokerDeal.DealtCard` | apps/duell-web/src/mpoker.js:82-89 | position i, opened with every seat's key for it, shows the composed permutation at i |
| `MpokerDeal.ComposedInjective` | apps/duell-web/src/mpoker.js:82-82 | no card is dealt to two positions |
| `MpokerVerify.ValidSecrets` | apps/duell-web/src/mpoker.js:90-95 | accepts exactly a permutation with keys from 1 to the order minus 1 |
| `MpokerVerify.ReplayShuffles` | apps/duell-web/src/mpoker.js:99-104 | runs through exactly when every published shuffle is the one the secrets give; a seat named did not follow |
| `MpokerVerify.ReplayLocks` | apps/duell-web/src/mpoker.js:105-108 | the same for the lock passes |
| `MpokerVerify.Verify` | apps/duell-web/src/mpoker.js:96-113 | for any prime order: accepts exactly the honest transcripts and reports the composed permutation, never names a seat that followed the protocol, and cannot end in its last failure |
| `MpokerVerify.VerifyDeal` | apps/duell-web/src/mpoker.js:96-113 | the same for the table's own order L, with nothing assumed about it |
| `MpokerVerify.DealtPermutes` | apps/duell-web/src/mpoker.js:109-112 | the dealt deck is a permutation of the cards |
| `DokoCards.FullPack` | apps/duell-web/src/doko.js:10-13 | 48 cards, none more than twice, are the whole pack and count 240 eyes |
| `DokoRules.FindBest` | apps/duell-web/src/doko.js:54-62 | the card found is one no card of the trick beats; of equal cards the first, the second trump Heart Ten under the house rule |
| `DokoRules.OneTakes` | apps/duell-web/src/doko.js:52-62 | only one card of a trick meets that description |
| `DokoRules.PowerOrders` | apps/duell-web/src/doko.js:46-51 | the numbers of `power` order cards exactly as trump order and plain order do, and equal non-negative ones mean the same card |
| `DokoRules.LegalCards` | apps/duell-web/src/doko.js:75-79 | offered are exactly the cards that follow, or all when none can |
| `DokoGame.StepKeeps` | apps/duell-web/src/doko.js:145-202 | every accepted reservation, card or call keeps the whole invariant: speaking order, trick order, card counts, parties, levels and calls |
| `DokoGame.SameTalk` | apps/duell-web/src/doko.js:170-188 | a card changes no reservation and no call, and a marriage that turns into a Karo solo keeps its trumps |
| `DokoRuns.FinishedRun` | apps/duell-web/src/doko.js:145-202 | every finished run has played each card exactly twice in twelve tricks of 240 eyes |
| `DokoRuns.StepCosts` | apps/duell-web/src/doko.js:145-202 | every accepted action uses up one of the moves ahead |
| `DokoRuns.RunsEnd` | apps/duell-web/src/doko.js:145-202 | no run takes more than 66 accepted actions |
| `DokoRuns.DealerMustSit` | apps/duell-web/src/doko.js:81-86 | for every number: a hand can be played exactly when the dealer's number, cut to a signed 32-bit integer, leaves a remainder that is not negative; then it is the hand dealt by that seat |
| `DokoCalls.HigherCallAlone` | apps/duell-web/src/doko.js:115-124 | a call above Re or Kontra comes while the first call still could exactly when the seat holds enough cards for that one too |
| `DokoCalls.HigherCallAfterTheFirst` | apps/duell-web/src/doko.js:189-199 | a hand in which Re is refused as too late and `k90` for Re is accepted at the same moment |
| `DokoCalls.TooLateStaysTooLate` | apps/duell-web/src/doko.js:115-124 | playing a card never opens a call that was too late |
| `DokoScore.DealSides` | apps/duell-web/src/doko.js:205-215 | with a valid deal a finished game has one Re player in a solo or silent marriage and two otherwise |
| `DokoScore.OneWinner` | apps/duell-web/src/doko.js:222-230 | at most one party meets its target, and neither only when both called above Re or Kontra |
| `DokoScore.PartyLines` | apps/duell-web/src/doko.js:233-248 | the points of a party: won, marks missed by the other side, calls, and calls answered |
| `DokoScore.TrickLines` | apps/duell-web/src/doko.js:251-256 | Doppelkopf, foxes and Karlchen of one trick, for the side that took it |
| `DokoScore.SharesCancel` | apps/duell-web/src/doko.js:258-261 | the four shares of a balance sum to zero |
| `DokoScore.ResultOf` | apps/duell-web/src/doko.js:216-263 | eyes and tricks of both sides, the winner by the targets, points that are the sum of the lines; after a finished hand 240 eyes in all and, for a valid deal, four points that sum to zero |
| `DokoAudit.AuditTrick` | apps/duell-web/src/doko.js:272-281 | one trick of the audit finds nothing exactly when each card was in the hand and followed suit if it could |
| `DokoAudit.AuditDeal` | apps/duell-web/src/doko.js:269-271 | finds nothing exactly for four hands of twelve that make the pack |
| `DokoAudit.AuditClaims` | apps/duell-web/src/doko.js:282-288 | finds nothing exactly when every marriage claim and call fits the revealed hands |
| `DokoAudit.Audit` | apps/duell-web/src/doko.js:266-290 | the list is empty exactly when deal, cards, claims and calls are clean |
| `DokoProgress.CallsAreJudged` | apps/duell-web/src/doko.js:285-288 | calls in a solo or marriage cannot be false; in a normal game they are judged by the Club Queens |
| `DokoProgress.AuditMeaning` | apps/duell-web/src/doko.js:266-290 | for every run: the audit, which judges all tricks by the final kind, is clean exactly when the deal was valid and every action was true when it was made, by the kind at that moment |
| `DokoAuto.StillFree` | apps/duell-web/src/doko.js:170-175 | a card still in a true hand has not been played twice |
| `DokoAuto.OfferedIsAccepted` | apps/duell-web/src/doko.js:125-143 | for every valid deal everything offered for the true remaining hand is accepted, and is true: card, marriage and call |
| `DokoAuto.OfferedIsClean` | apps/duell-web/src/doko.js:125-290 | a run in which every seat only does what it is offered is accepted throughout and its audit finds nothing |
| `DokoAuto.AutoMove` | apps/duell-web/src/doko.js:304-317 | the loops of `auto` over the offered actions and the solos give the one automatic move |
| `DokoAuto.WeakestOf` | apps/duell-web/src/doko.js:296-303 | the card chosen is one of the cards and none is weaker |
| `DokoAuto.AutoIsAccepted` | apps/duell-web/src/doko.js:304-317 | the automatic move of the seat on turn always exists, is accepted and is true |
| `DokoAuto.PlayOut` | apps/duell-web/src/doko.js:304-317 | from any honest point on there is a run of automatic moves only, each the one of the seat on turn at its moment, that finishes the hand, honestly |
| `CallSession.StepKeeps` | apps/call-core/src/call-core.js:104-209 | every atomic step keeps: microphone and connection only in connecting, connected and reconnecting; a timer only runs the callback of its name; reconnecting has its deadline |
| `CallSession.EndedStays` | apps/call-core/src/call-core.js:507-523 | after the end no handler, timer or continuation sends anything or opens anything |
| `CallSession.MediaOnlyInCalls` | apps/call-core/src/call-core.js:184-209 | on every run the local stream and the connection exist only in connecting, connected and reconnecting |
| `CallSession.EndedForever` | apps/call-core/src/call-core.js:507-523 | on every run: ended is final, both are released and nothing is sent |
| `CallSession.StartKept` | apps/call-core/src/call-core.js:376-385 | entering reconnecting sets its start; no step while reconnecting moves it |
| `CallSession.ReconnectingIsShort` | apps/call-core/src/call-core.js:376-385 | no stretch of reconnecting lasts longer than `reconnectWindowMs` |
| `CallPair.CallerStep` | apps/call-core/src/call-core.js:236-255 | a step of the caller never lowers its epoch, offers only its current epoch and never answers |
| `CallPair.CalleeStep` | apps/call-core/src/call-core.js:271-295 | a step of the callee never lowers `answeredEpoch`, never offers and answers nothing beyond it |
| `CallPair.PairStep` | apps/call-core/src/call-core.js:236-303 | no offer or answer sent, queued or being worked on is ahead of the caller, no answer ahead of the callee |
| `CallPair.TakenAnswerIsCurrent` | apps/call-core/src/call-core.js:297-303 | an answer the caller takes in is for the epoch the callee answered last |
| `CallPair.EpochAgreement` | apps/call-core/src/call-core.js:236-303 | on every run over a channel that loses, repeats and reorders |
| `Discs.SlidLoses` | apps/duell-web/src/arcade2.js:370-378 | a rolling disc loses at least a fixed part of its squared speed in a step, any other is stopped; walls add nothing |
| `Discs.ClashKeeps` | apps/duell-web/src/arcade2.js:379-386 | each collision of a pair keeps the momentum and never raises the sum of squared speeds; discs at rest do not collide |
| `Discs.StepLoses` | apps/duell-web/src/arcade2.js:368-388 | a step that reports movement lowers the sum by a fixed positive amount; one that does not leaves everything at rest |
| `Discs.SlideEach` | apps/duell-web/src/arcade2.js:370-378 | the first loop in place: every disc slid once, and whether any rolls |
| `Discs.ClashEach` | apps/duell-web/src/arcade2.js:379-386 | the nested loops in place: all pairs in the order of the loops |
| `Discs.DiscStep` | apps/duell-web/src/arcade2.js:368-388 | the step in place equals the step on values, with the loss of speed |
| `Discs.RollOut` | apps/duell-web/src/arcade2.js:425-425 | for any number of discs the roll ends at rest, after a number of steps bounded by the starting speeds |
| `TurnGames.Nearest` | apps/duell-web/src/arcade2.js:454-455 | the nearest stone within 300 of the middle, the earlier of equals, or none |
| `TurnGames.FromTheLine` | apps/duell-web/src/arcade2.js:464-464 | what a phone sends as the start of its throw passes the receiver's comparison |
| `TurnSide.Side.Accept` | apps/duell-web/src/arcade2.js:427-438 | the message handler in place is the specification's |
| `TurnSide.Side.WorkOffQueue` | apps/duell-web/src/arcade2.js:413-416 | the loop over waiting throws in place |
| `TurnSide.Side.Roll` | apps/duell-web/src/arcade2.js:424-425 | the loop of fixed steps runs some number of steps and settles when nothing moves |
| `TurnSide.Side.Advance` | apps/duell-web/src/arcade2.js:408-426 | a tick of any length is a specification tick with some number of steps |
| `TurnLockstep.SettleTurned` | apps/duell-web/src/arcade2.js:440-487 | settling a throw does the same on both phones, scores the other way round |
| `TurnLockstep.NotThree` | apps/duell-web/src/arcade2.js:448-448 | nobody throws three times in a row |
| `TurnLockstep.AtMostTwoWait` | apps/duell-web/src/arcade2.js:432-436 | at most two throws ever wait or are on their way |
| `TurnLockstep.TakenUnlessTooFast` | apps/duell-web/src/arcade2.js:427-438 | a throw in turn, from the line and towards this side is taken exactly when it is within VMAX*1.001 |
| `TurnLockstep.StepKeeps` | apps/duell-web/src/arcade2.js:389-442 | every tick and arrival keeps both phones on the way of the one reference board |
| `TurnLockstep.Lockstep` | apps/duell-web/src/arcade2.js:389-487 | on every run whose throws so far are within the limit: nothing rejected, at most two waiting, and after equally many settled throws equal boards and mirrored scores |
| `TurnParting.PartedKeeps` | apps/duell-web/src/arcade2.js:389-442 | once a throw was too fast no move of either phone brings them together again |
| `TurnParting.Parting` | apps/duell-web/src/arcade2.js:420-438 | from the first throw above VMAX*1.001 on, whatever happens: the thrower counts on, the receiver stays at the throws before it, rejects that one when it arrives and each later one, and the boards never agree |
| `TurnParting.StillTogether` | apps/duell-web/src/arcade2.js:389-442 | while no throw was too fast both phones can play out what is under way and then hold the same board |
| `TurnParting.AgreeIff` | apps/duell-web/src/arcade2.js:389-442 | on every run: the boards can still come to agree if and only if no throw was faster than VMAX*1.001 |
| `TurnParting.FastStart` | apps/duell-web/src/arcade2.js:417-433 | every first throw above the limit is such a run |
| `TurnParting.FastOnes` | apps/duell-web/src/arcade2.js:445-463 | straight ahead at 1600 a second is above the limit of either game |
| `MatchEnd.Base.LookForEnd` | apps/duell-web/src/arcade.js:41-46 | the end check in place: the last word goes out once, and with the other's word in the match is over |
| `MatchEnd.Base.TakeHit` | apps/duell-web/src/arcade.js:55-56 | a hit in place: told, counted and checked, nothing after the last word |
| `MatchEnd.Base.Hear` | apps/duell-web/src/arcade.js:47-57 | hits and last words in place |
| `MatchEnd.HitArrives` | apps/duell-web/src/arcade2.js:261-265 | a reported hit keeps the count of hits given, taken and under way |
| `MatchEnd.FinIsAccepted` | apps/duell-web/src/arcade.js:47-52 | every honest last word counts and brings the number of hits already known |
| `MatchEnd.StepKeeps` | apps/duell-web/src/arcade.js:41-57 | hits given plus hits under way equal hits taken, at most one last word each way, and it comes last |
| `MatchEnd.MatchesEndAlike` | apps/duell-web/src/arcade.js:35-58 | on every interleaving, simultaneous last hits included: no last word is turned down, phones that are over have mirrored scores and the same draw flag, and with nothing under way both are over or neither |
| `BallPhysics.SubstepOk` | apps/duell-web/src/arcade2.js:20-27 | after any substep of any of the three games the owner's ball is on the table and at most its radius over the middle, and within VMAX if its speed is a number |
| `BallPhysics.PuckOk` | apps/duell-web/src/arcade.js:111-121 | the mallet keeps the puck on the table and within VMAX |
| `BallPhysics.KickOk` | apps/duell-web/src/arcade2.js:51-96 | the four figures of the rods, the kick and the clamp do the same |
| `BallPhysics.FlipOk` | apps/duell-web/src/arcade2.js:133-168 | flippers, lanes and bumpers do the same, or leave the ball at the bumpers with a speed that is no number |
| `BallPhysics.DriftedOk` | apps/duell-web/src/arcade2.js:24-27 | a ball whose speed is no number keeps lying at the bumpers of its owner |
| `BallPhysics.RestIsLost` | apps/duell-web/src/arcade2.js:165-165 | a bumper turns the speed into no number exactly when it is hit at speed zero, which is divided by |
| `BallPhysics.WallsOk` | apps/duell-web/src/arcade2.js:60-72 | the walls keep the ball on the table and add no speed |
| `BallPhysics.PassIsPlausible` | apps/duell-web/src/arcade2.js:38-42 | every honest pass is plausible to the receiver, and starts it with a ball in play |
| `BallPhysics.ReportIsPlausible` | apps/duell-web/src/arcade2.js:38-42 | an honest position report is plausible exactly when the ball's speed is a number |
| `BallToken.TokenIsTaken` | apps/duell-web/src/arcade2.js:37-43 | an honest pass or hand-over makes the receiver the owner and is never rejected |
| `BallToken.OthersAreTaken` | apps/duell-web/src/arcade2.js:34-46 | points and serves of an honest phone are never rejected, position reports exactly when the ball's speed is no number; only a stroke may be besides |
| `BallToken.LostBall` | apps/duell-web/src/arcade2.js:20-30 | a ball whose speed is no number costs no point and moves no token: its owner keeps it until HOLD is over and then gives |
| `BallToken.ExactlyOne` | apps/duell-web/src/arcade2.js:13-49 | exactly one token among owners, pending serves and messages under way, none once a match has ended |
| `BallToken.StepKeeps` | apps/duell-web/src/arcade2.js:13-49 | every serve, substep, report and arrival keeps that, and points under way are counted once |
| `BallToken.OneOwner` | apps/duell-web/src/arcade.js:98-180 | on every run of Puck-Duell, Stangen-Kick and Flipper-Duell: one owner, no point lost or doubled, mirrored scores at the end |
| `BauernskatRuns.StepKeeps` | apps/duell-web/src/bauernskat.js:106-155 | every accepted action of a truthful run keeps the stacks, the cards gone, the flips owed and the counts in step with the deal |
| `BauernskatRuns.FlipAccepted` | apps/duell-web/src/bauernskat.js:123-136 | the true card of every stack to be turned is accepted |
| `BauernskatAudit.RevealAccepted` | apps/duell-web/src/bauernskat.js:77-82 | every reveal the table may ask for is accepted with its true card |
| `BauernskatAudit.RunsEnd` | apps/duell-web/src/bauernskat.js:106-155 | no card is played twice and there are at most 67 accepted actions |
| `BauernskatAudit.MoverHasCard` | apps/duell-web/src/bauernskat.js:90-101 | the seat to move always has a face-up card |
| `BauernskatAudit.OfferedAccepted` | apps/duell-web/src/bauernskat.js:137-147 | accepted are exactly the legal cards of the seat on turn |
| `BauernskatAudit.AutoAccepted` | apps/duell-web/src/bauernskat.js:212-225 | the automatic move is there and accepted |
| `BauernskatAudit.AutoSuitIsBest` | apps/duell-web/src/bauernskat.js:214-219 | without three jacks the suit declared has the most trumps |
| `BauernskatReplay.AuditStacks` | apps/duell-web/src/bauernskat.js:191-194 | finds nothing exactly when what lies open is the deal's |
| `BauernskatReplay.AuditTrick` | apps/duell-web/src/bauernskat.js:196-204 | one trick of the replay finds nothing exactly when its cards lay open and followed suit |
| `BauernskatReplay.Audit` | apps/duell-web/src/bauernskat.js:182-206 | the list is empty exactly when there is no contract yet, or deal, open cards and replay are clean |
| `BauernskatReplay.StepFollows` | apps/duell-web/src/bauernskat.js:106-155 | after every accepted action the replay has the stacks as they will be once the owed cards are turned |
| `BauernskatReplay.HonestIsClean` | apps/duell-web/src/bauernskat.js:182-206 | the audit of every truthful run is clean at any moment |
| `BauernskatReplay.PlayOut` | apps/duell-web/src/bauernskat.js:212-225 | from any truthful point on there is a run that ends the hand in which each action turns up the deal's card where one is owed and is the automatic move otherwise; its replay follows the game to the end |
| `MalratSimplify.Farthest` | apps/duell-web/src/malrat.js:94-97 | the first of the farthest points between two others, or none |
| `MalratSimplify.KeptChosen` | apps/duell-web/src/malrat.js:86-100 | what the recursion of Douglas and Peucker keeps: both ends, in order, and everything left out lies within eps of the segment between its kept neighbours |
| `MalratSimplify.Keep` | apps/duell-web/src/malrat.js:90-98 | the worklist ends and marks exactly the points that recursion keeps |
| `MalratSimplify.Simplify` | apps/duell-web/src/malrat.js:90-100 | returns the points the recursion keeps, in order |
| `MalratText.DecodeLine` | apps/duell-web/src/malrat.js:115-121 | reads one line cell by cell |
| `MalratText.Decode` | apps/duell-web/src/malrat.js:111-123 | the loops read exactly the texts that are pictures |
| `MalratText.TextRoundTrip` | apps/duell-web/src/malrat.js:103-123 | a picture is read back with colours, widths and cells exactly when it is within the limits and has no empty line, and is refused otherwise |
| `MalratDraw.RoundedSegment` | apps/duell-web/src/malrat.js:101-106 | rounding the ends of a segment moves it by half a cell's diagonal at most |
| `MalratDraw.StrokeShows` | apps/duell-web/src/malrat.js:103-109 | every point of a stroke lies within eps and half a cell's diagonal of the line drawn for it; no cells are left only of a stroke without points |
| `MalratDraw.EncodeLine` | apps/duell-web/src/malrat.js:103-109 | writes that line, without repeated cells |
| `MalratDraw.Encode` | apps/duell-web/src/malrat.js:103-123 | the text is read back exactly when it is within the limits and no stroke is empty; then every stroke has its colour and width and every original point lies within that bound |
| `MalratDraw.Pack` | apps/duell-web/src/malrat.js:125-128 | the text of the finest of the four tolerances whose text fits; none exactly when none fits |
| `Biz.EasterIsSunday` | apps/duell-web/src/biz.js:29-33 | of the years from 0 on, the day computed is a Sunday in exactly those from 100 on, and then from 22 March to 25 April; `Date.UTC` takes two digits for the twentieth century |
| `Biz.DateOf` | apps/duell-web/src/biz.js:34-37 | the calendar date a day number stands for |
| `Biz.MondayHoliday` | apps/duell-web/src/biz.js:34-37 | which Mondays of a year are holidays |
| `Biz.OneMondayFree` | apps/duell-web/src/biz.js:40-40 | of three Mondays in a row one is no holiday |
| `Biz.FirstDay` | apps/duell-web/src/biz.js:40-40 | the first Monday at least seven days ahead that is no holiday, at most two weeks after the first Monday |
| `Biz.DueOf` | apps/duell-web/src/biz.js:43-48 | never before today; day one stays, other deadlines move to the last working day not before today |

## Left out

- Secrecy of the joint deal and the group law of Curve25519: a point is its multiple of the base point, up to sign. The
  ladder is proved to compute its formulas, not that these are the group's.
- Hexadecimal and byte forms of keys, and JSON that is not of the right shape: keys are numbers, actions and messages
  are datatypes.
- `applyTo`, `seed`, `doc` and the digest of collab.js: writing the merged state into the page's object; a digest is
  whatever makes `differs` true. The edits that `local` finds are the calls of `SetLocal`, `PutSticker` and `Kill`.
- Call sessions and endpoints as objects: CallSession is a state machine on values, since its point is the interleaving
  of continuations. ICE candidates waiting for their description, mute, statistics, end reasons, video flags and relay
  settings are not in it. Time does not run past an armed timer.
- The games' screens, particles, bots and sounds; finger-speed limits of the other side's figures (a stroke may be turned
  down, which never moves the token).
- CollabReplica.Replica.DrainTo: the frames of a queue one after the other, without the waiting between them that `Tick`
  and `MinuteBound` are about.
- BallToken.LostBall: whether flippers and bumpers of a real match ever bring a ball to speed zero at a bumper.
- Biz.EasterIsSunday: years before 0 are not in it.
- Biz.FirstDay: days before 1583, and days past the end of JavaScript's dates in the year 275760.
- Biz.DueOf: the same days.
- FIN_WAIT: the match-end theorem is about phones that both speak their last word.
- The scoring of Bauernskat, and Skat itself beyond the order of cards.
- Discs.DiscStep: the discs are values in an array that is changed in place; aliasing of disc objects is not modelled.
- BallPhysics.SubstepOk: the ball is a value; the source changes an object. Sine and cosine come in as the ends of the
  flippers.
- Everything with a screen, a store or a network, WebCrypto, the Rust crates, and the smaller engines (daily, quests,
  duels, profiles), which would add easier members.
