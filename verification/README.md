# Nymora, modelled and proved

Nymora is a protocol engine for anonymous membership. An operator keeps, per agora, one append-only
Merkle tree per policy class and two exclusion sets (revocations and migration spends). Members act
by proving statements against the epoch's roots; the operator admits, migrates, decides and revokes
on nothing but those proofs; and at every boundary it broadcasts an envelope from which each member
rebuilds what it needs for the next epoch. This project models that engine in Dafny and proves what
its design promises, over every input, every step and every run.

## How the model is laid out

- **Accumulators.** `Merkle` is the meaning of a tree: the node at a level and index. `BatchTree`
  (byte leaves, rebuilt whole) and `SparseTree` (field leaves, kept incrementally) are the two
  implementations, each loop proved against that meaning. `Exclusion` and `GapSets` are the two gap
  trees on top, in which "not a member" is inclusion of a gap.
- **Statements.** `Statements` evaluates the chain, migration and inbox statements clause by clause,
  with the stub backend whose proof is its witness. `Translation` converts each to the field
  statements the circuits' CPU evaluators check, and proves when the two agree. `Bindings` says what a
  signature, a certificate, a leaf and a nullifier are each for: one thing, up to listed collisions.
- **The operator.** `Operator` gives every request as a function of the state before. `Agoras.AgoraState`
  is the same operator as the object it is, fields updated in place, every method tied to its
  transition. `OperatorLayout` holds the invariant of the live state. `OperatorRuns` and the modules
  after it add a ghost ledger (every epoch's trees, the evidence behind every counted nullifier, a
  receipt per admission) and carry its invariants through every step; `OperatorSafety`,
  `OperatorSessions`, `OperatorMembership`, `OperatorConservation`, `OperatorRevocation`, `OperatorPolicies` and
  `OperatorServing` state the theorems over runs. `OperatorAnswers` says of each request exactly when it
  is answered yes and what that does; `OperatorRegistrations`, `OperatorIntake` and `OperatorRecords`
  tell who is reached under which key, what is pending or outstanding and what the log says from the
  requests a run accepted alone.
- **Delivery.** `Inboxes`, `Bodies` and `Bulletins` are the boundary envelope from both ends;
  `Redelivery` is what serving it twice in one epoch does, and `Acceptance` what members and auditors
  take under the operator's keys.
- **The device.** `Credentials` is the credential lifecycle over a store whose writes fail on any
  schedule, `EpochRecords` the record a roll stores; `PlannedMigration` composes it with the handoff, the proof and the operator.
- **Around them.** `Log` (the transparency log and its audits), `LiveAuthentication`, `Base64` and
  `Armors`, `Cursor`, `Bundles`, `Handoffs`, and the injectivity of every framed preimage (`Framing`,
  `Canonical`).

## What is assumed

Poseidon, SHA-256, HKDF, the curve, signatures, key agreement and authenticated encryption are
uninterpreted functions bundled in a `Scheme`. `Primitives` says they have the ranges they have (a
depth between 1 and 63, hashes in the field). The only laws any theorem calls on are stated in
`Lawful` and named where used: points re-encode, what a key signs verifies, both sides of an agreement
agree, what is sealed opens.

Nothing assumes a hash injective, which over a finite range would be false. Soundness is stated
relative to an explicit finite set of preimages: those the accepted proof hashed and those the tree
itself hashes along the same path (`WitnessQueries`, `AbsenceQueries`, `ChainQueries`,
`ConsentQueries`), and for signatures to the equations checked and the digests signed (`TwoChecks`,
`StatementQueries`). A theorem holds when no two of them collide and none hashes to the empty value, so
a violation of a theorem exhibits a collision among listed values.

A run starts at any founding the operator accepts, at an epoch a u64 can name, that lists no founder
class twice, and continues with any steps whatever, accepted or refused. `Foundings.FoundingExact`
shows that the condition on founder classes is exact.

## Where the code and its documentation part

- An envelope served again in the same epoch is documented to be the same value, and two signed
  envelopes of one epoch that differ to prove a fork. The body never changes within
  an epoch, but the list of ciphertexts changes when a delivered registration is retired or renewed to
  another key, or when an executed horizon decision lapses one or revives one, and the embedded head
  when an executed policy decision is logged. `Redelivery.ServedAgain` is the exact condition on the
  step in between and `Redelivery.ServedAcross` on any two servings; `Redelivery.RedeliveryEquivocates` and
  `Redelivery.EquivocatesAcross` are the same for the fork check, which then accuses an honest operator,
  and `Redelivery.HonestRedeliveryEquivocates` is one such input, a retirement.
- A member's lookup tag is documented to name its own ciphertext. Two leaves of one class registered
  under one inbox key share their tag, and the lookup gives the lower position's ciphertext to both:
  `Bulletins.LookupFindsOwn` is the exact condition, `Redelivery.SharedKeyMisleads` one such input.
- Nothing about a vouch session is documented to depend on its identifier being unique. A ballot is
  bound to the identifier, not to the candidate, so one cast for a candidate counts for another where an
  identifier is opened again in the same epoch: `OperatorSessions.ReplayExactly` is the exact condition,
  and `OperatorSessions.CastForNoOther` what holds without reuse.
- Creation is documented never to leave a partial credential. From empty slots that holds; over slots
  already held it need not: `Credentials.OverwritingCanTear` is the exact condition over any store,
  `Credentials.SecondWriteTears` one such input.
- Sweeping is documented to destroy every ended epoch's key, and authorizing a migration to destroy
  every epoch key. Both reach only what the cursor names: `Credentials.DiscardLeavesUnreached`,
  `Credentials.RollLeavesUnreached` and `Credentials.AuthorizeLeavesStrays` give exactly what stays,
  `Credentials.NothingOutlives` shows that nothing stays when cursor writes succeed, and
  `Credentials.FirstCursorWriteLost` and `Credentials.AuthorizationMissesKey` show a key that survives
  when one fails.
- A refused migration is documented to be refused whole. It fails to be exactly at the last epoch a
  u64 can name, for a migration that every check passes: `Foundings.MigrationIsWhole`.

## Model

| member | source | states |
|---|---|---|
| Merkle.InclusionComplete | nymora-accumulator/src/tree.rs:166-185 | the path of any position folds to the root |
| Merkle.InclusionSound | nymora-accumulator/src/witness.rs:183-199 | a nonzero leaf and any siblings that fold to the root sit at that index of the leaf sequence, unless listed preimages collide |
| BatchTree.OccupiedHeightIsLeast | nymora-accumulator/src/tree.rs:100-108 | the occupied height is the least level with at most one occupied node |
| BatchTree.RefillRestoresPath | nymora-accumulator/src/witness.rs:133-147 | cutting a path at the occupied height and refilling each level with its empty value gives the original witness |
| BatchTree.PathVerifies | nymora-accumulator/src/tree.rs:154-185 | what the tree hands out verifies against its root at every landed position |
| BatchTree.VerifiedLeafIsPlaced | nymora-accumulator/src/witness.rs:206-222 | a nonzero leaf that verifies against a tree's root is the leaf at the witness's index, up to a listed collision |
| BatchTree.FromPrefix | nymora-accumulator/src/witness.rs:133-147 | the level-by-level rebuild computes exactly the refilled witness, and refuses a long prefix or an index outside the depth |
| BatchTree.FoldLevels | nymora-accumulator/src/witness.rs:183-199 | the bit-driven conditional swap loop computes the recursive fold |
| BatchTree.Tree.Append | nymora-accumulator/src/tree.rs:85-92 | appends at the next position, or refuses and changes nothing exactly when full |
| BatchTree.Tree.Root | nymora-accumulator/src/tree.rs:154-160 | the batch rebuild's root is the root of the leaf sequence |
| BatchTree.Tree.WitnessAt | nymora-accumulator/src/tree.rs:166-185 | the batch rebuild's path is, at every level, the sibling node of the leaf sequence; none past the last leaf |
| SparseTree.Tree.Append | nymora-plonk/src/tree.rs:101-125 | one-node-a-level recomputation keeps every level equal to the leaf sequence's, and refuses at the same length as the batch tree |
| SparseTree.Tree.WitnessAt | nymora-plonk/src/tree.rs:133-146 | the incremental path is the leaf sequence's path with the position's bits |
| SparseTree.BitPathIsFold | nymora-plonk/src/tree.rs:38-49 | folding by stored bits equals folding by index |
| SparseTree.TreesAgree | nymora-plonk/src/tree.rs:101-146 | over the same leaves both trees have the same root and the same path at every position, and every path folds back to the root |
| Exclusion.TruncationIsReduction | nymora-accumulator/src/exclusion.rs:48-53 | clearing the top three bits is reduction modulo 2^253, and changes nothing exactly below it |
| Exclusion.CtLess | nymora-accumulator/src/exclusion.rs:66-75 | the two-accumulator byte loop decides integer order |
| Exclusion.UpperSentinelValue | nymora-accumulator/src/exclusion.rs:56-60 | the upper sentinel's bytes are 2^253 - 1 |
| Exclusion.AbsenceSound | nymora-accumulator/src/exclusion.rs:156-177 | any witness whatever, raw bounds included, that is accepted against a set's root shows the key's truncation is not in the set, up to a listed collision |
| Exclusion.AbsenceComplete | nymora-accumulator/src/exclusion.rs:303-313 | for a key whose gap was appended, the picked witness is accepted if and only if the truncation is neither present nor a sentinel |
| Exclusion.CheckAbsent | nymora-accumulator/src/exclusion.rs:156-177 | the check as it runs computes the absence predicate |
| Exclusion.ExclusionSet.Insert | nymora-accumulator/src/exclusion.rs:252-256 | inserts the key's truncation |
| Exclusion.ExclusionSet.Root | nymora-accumulator/src/exclusion.rs:276-294 | the appended gap leaves' root is the set's root |
| Exclusion.ExclusionSet.AbsenceFor | nymora-accumulator/src/exclusion.rs:303-313 | of a set of any size, the operator's witness is the gap holding the key's truncation with its path in the tree of the gaps that were appended; none, the panic, exactly for a gap a full tree did not take |
| Exclusion.RebuiltIsSame | nymora-accumulator/src/exclusion.rs:252-265 | a set rebuilt by inserting the keys another lists is the same set |
| GapSets.SameGapPicked | nymora-plonk/src/exclusion.rs:146-164 | the sorted-vector set picks the same gap for every truncated key below the upper sentinel |
| GapSets.SentinelNeverContained | nymora-plonk/src/exclusion.rs:82-92 | at the upper sentinel no gap contains the key in either set |
| GapSets.GapSet.Search | nymora-plonk/src/exclusion.rs:113-118 | the binary search finds the key or its one insertion point |
| GapSets.GapSet.Insert | nymora-plonk/src/exclusion.rs:113-118 | keeps the vector sorted, duplicate-free and holding exactly the keys inserted |
| GapSets.GapSet.Root | nymora-plonk/src/exclusion.rs:130-143 | the vector's gap tree has the same root as the set's |
| GapSets.GapSet.AbsenceFor | nymora-plonk/src/exclusion.rs:146-164 | the vector's witness is the same gap with the same path |
| Statements.StubIsHonest | nymora-circuits/src/stub.rs:383-425 | the stub proves exactly the true chain statements, and verifies what it proves |
| Statements.MigrationStubIsHonest | nymora-circuits/src/stub.rs:429-470 | the same for migration statements |
| Statements.InboxStubIsHonest | nymora-circuits/src/stub.rs:473-505 | the same for inbox instructions |
| Statements.ChainSound | nymora-circuits/src/stub.rs:205-286 | an accepted chain statement opens a landed nonzero leaf that is unrevoked and unspent under those very roots, up to a listed collision |
| Statements.MigrationSound | nymora-circuits/src/stub.rs:289-345 | an accepted migration statement consumes a landed unrevoked leaf, up to a listed collision |
| Statements.OneLeafOneKey | nymora-crypto/src/commit.rs:44-61 | two openings of one leaf share their credential key, unless their preimages collide |
| Translation.ChainTranslates | nymora-plonk/src/system.rs:102-165 | when the conversions succeed and gap bounds lie in the ordering domain, the field chain statement holds exactly when the byte statement does |
| Translation.MigrationTranslates | nymora-plonk/src/system.rs:167-190 | the same for migrations |
| Translation.InboxTranslates | nymora-plonk/src/system.rs:192-211 | the same for inbox instructions |
| Translation.ConvertPathLevels | nymora-plonk/src/system.rs:81-90 | the array-filling loop converts a witness level by level |
| Translation.AbsenceTranslates | nymora-plonk/src/evaluate.rs:34-133 | the two absence clauses agree on converted witnesses |
| Framing.Hasher.Absorb | nymora-crypto/src/hash.rs:88-106 | what the hasher has absorbed is exactly the framed preimage of its domain and parts |
| Framing.FramedInjective | nymora-crypto/src/hash.rs:99-106 | length framing determines every part and their number |
| Framing.PreimageInjective | nymora-crypto/src/hash.rs:78-106 | one preimage determines its domain and every part |
| Framing.TagsDistinct | nymora-crypto/src/hash.rs:78-85 | no two domains share a tag |
| Bindings.VerifiesExactly | nymora-crypto/src/signature.rs:150-176 | a signature verifies if and only if key and nonce are points, the scalar is canonical and the equation holds over the hash of both points and the message |
| Bindings.SignatureNames | nymora-crypto/src/signature.rs:114-176 | a signature verifies under a key for one message only, up to a listed equation clash |
| Bindings.CertificatesAsked | nymora-crypto/src/signature.rs:183-232 | what each statement asks of its certificate: the root key's signature for this agora, and epoch and epoch key, or successor, or action and inbox |
| Bindings.CertificateNames | nymora-crypto/src/signature.rs:183-232 | a certificate certifies one thing: one agora, one epoch or action, one key, and never as another kind of certificate, up to listed collisions |
| Bindings.LeafNames | nymora-crypto/src/commit.rs:44-61 | a leaf names its root key, credential key, opening and agora, a spend its key, leaf and agora, a revocation entry its leaf, and none of them is ever another, up to a listed collision |
| Bindings.NullifierNames | nymora-crypto/src/nullifier.rs:68-121 | two actions claiming one nullifier are of one kind, in one agora, under one key, and about the same session or proposal, up to listed collisions |
| OperatorLayout.StepKeepsCore | nymora-protocol/src/operator/mod.rs:553-587 | every step, accepted or refused, keeps the class layout, the staging that fits beside it, the set domains, the governance floors and the quiet of a dissolved agora |
| OperatorLayout.LandAllGrows | nymora-protocol/src/operator/mod.rs:558-570 | a boundary appends to each class exactly its own staged leaves, each padded, in staging order |
| OperatorLayout.LandAllOk | nymora-protocol/src/operator/mod.rs:558-570 | nothing staged can fail to land |
| OperatorLayout.FounderLands | nymora-protocol/src/operator/mod.rs:463-471 | the founder lands at position 0 of each listed class and nowhere else |
| OperatorLayout.RemainingIsNatural | nymora-protocol/src/operator/mod.rs:775-786 | remaining capacity never underflows |
| OperatorLayout.FrozenForever | nymora-protocol/src/operator/mod.rs:600-605 | after dissolution every mutating call is refused and changes nothing |
| Foundings.FoundingExact | nymora-protocol/src/operator/mod.rs:407-480 | an accepted founding starts in the invariant if and only if it lists no founder class twice |
| Foundings.FoundingAnswer | nymora-protocol/src/operator/mod.rs:407-480 | a founding that lists no founder class twice is accepted if and only if it lists a class, every listed policy asks at least one voucher of a listed class, and every founder class is listed; and then every field of the agora, the founder's registration and places included |
| Foundings.MigrationIsWhole | nymora-protocol/src/operator/migrate.rs:54-98 | a refused migration changes something if and only if it is the last epoch, every check passes and staging takes the leaf, and then the successor stays staged without its spend; an accepted one stages exactly successor, spend and inbox |
| Polls.DistinctMembers | nymora-circuits/src/stub.rs:205-286 | as many distinct nullifiers counted, as many distinct landed positions spoke; each nullifier is its own witness's, which opens the leaf there, unrevoked and, under the key that opens it, unspent, up to a listed collision |
| Polls.TwoBallotsTwoSeats | nymora-crypto/src/nullifier.rs:68-121 | two nullifiers accepted for one subject come from two positions |
| OperatorBallots.StepKeepsVotes | nymora-protocol/src/operator/vouch.rs:111-174 | every nullifier a session counts has an accepted statement for that session under the live trees' roots |
| OperatorBallots.StepKeepsApprovals | nymora-protocol/src/operator/quorum.rs:128-201 | every approval a proposal counts has an accepted statement for that subject under the live trees' roots |
| OperatorReceipts.StepKeepsReceipts | nymora-protocol/src/operator/vouch.rs:183-218 | every admission returned stays pending at its promised place or has landed there |
| OperatorMigrations.StepKeepsEvidence | nymora-protocol/src/operator/migrate.rs:75-97 | every accepted migration keeps a consent that holds against the trees of its epoch, whose set lacked its spend |
| OperatorMigrations.StepKeepsSpends | nymora-protocol/src/operator/migrate.rs:66-71 | no spend is accepted twice |
| OperatorMigrations.StepKeepsCounts | nymora-protocol/src/operator/mod.rs:280-289 | a class's landed leaves are exactly its founder plus one per receipt whose epoch has come, and while the agora lives landed plus staged are one per receipt |
| OperatorLog.StepKeepsLog | nymora-protocol/src/operator/mod.rs:631-653 | every step keeps a signed head per entry, epochs that never rewind, and a freeze exactly at dissolution |
| OperatorSafety.ReachableIsSound | nymora-protocol/src/operator/mod.rs:407-480 | every run from an accepted founding satisfies the whole invariant |
| OperatorSafety.AdmissionIsVouched | nymora-protocol/src/operator/vouch.rs:162-174 | in every run the nullifiers an admission counted are ballots on its session, at least the threshold then in force, itself at least one, from as many distinct landed voucher-class leaves, each opened by its ballot's witness, unrevoked, and unspent under the key that opens it |
| OperatorSafety.DecisionHasQuorum | nymora-protocol/src/operator/quorum.rs:185-201 | in every run the approvals a decision counted are ballots on it, at least the quorum then in force, itself at least one, from as many distinct landed leaves of the approving class in the same good standing |
| OperatorAnswers.AdmittedExactly | nymora-protocol/src/operator/vouch.rs:162-218 | in every run, live and with an epoch left, an open session admits its candidate if and only if it counted its class's threshold, the class's tree has a free slot past what is staged, and the candidate is neither landed nor staged there; the promise is the next epoch and that slot, and the session is consumed either way |
| OperatorAnswers.StartAnswer | nymora-protocol/src/operator/vouch.rs:69-98 | a session opens if and only if its candidate is pending and its class known, with room and without the candidate; it starts with nothing counted |
| OperatorAnswers.AttestAnswer | nymora-protocol/src/operator/vouch.rs:111-148 | in every run a ballot is counted if and only if its session is open, it was not counted before, and its proof holds against the live trees of the session's voucher class |
| OperatorAnswers.ProposeAnswer | nymora-protocol/src/operator/quorum.rs:58-100 | a proposal is filed if and only if its classes are known and it sets nothing below its floor, with no approvals yet, and which refusal it gets otherwise |
| OperatorAnswers.ApproveAnswer | nymora-protocol/src/operator/quorum.rs:128-163 | in every run an approval is counted if and only if its proposal is open, it was not counted before, and its proof holds against the live trees of the approving class |
| OperatorAnswers.ExecuteAnswer | nymora-protocol/src/operator/quorum.rs:185-246 | in every run a proposal is carried out if and only if its approvals reach the quorum, the last epoch's revocation aside; what it answers, and what it leaves: a next version, a revoked leaf in a new epoch, an agora with nothing open and no secret, or the horizon alone |
| OperatorAnswers.MigrateAnswer | nymora-protocol/src/operator/migrate.rs:54-98 | in every run with an epoch left a migration is accepted if and only if its proof holds against the live tree and revocations, its spend is neither landed nor staged, and the class has room for a successor it neither holds nor has staged; and what it stages |
| OperatorAnswers.AdvanceAnswer | nymora-protocol/src/operator/mod.rs:553-587 | in every run a boundary is crossed if and only if the agora lives and an epoch is left; each staged spend and revocation enters its own set, each class grows by its staged leaves, everything open closes, and nothing else changes |
| OperatorAnswers.RedeemAnswer | nymora-protocol/src/operator/access.rs:75-97 | in every run access is granted if and only if the challenge is outstanding and the proof holds for it against the live trees, and the challenge is spent either way |
| OperatorAnswers.CertificateAnswer | nymora-protocol/src/operator/inbox.rs:33-74 | an instruction is taken if and only if its proof holds and it retires the very key registered or renews a landed, unrevoked leaf; and what it leaves |
| OperatorSessions.AdmissionNamesCandidate | nymora-protocol/src/operator/vouch.rs:111-174 | in every run each ballot an admission counts was cast in this epoch while its session named the leaf it admits and the class it admits it to, and if the identifier was opened once this epoch nothing accepted under it was cast for another |
| OperatorSessions.CastForNoOther | nymora-protocol/src/operator/vouch.rs:53-60 | under an identifier opened once this epoch every accepted ballot was cast for the candidate its session names |
| OperatorSessions.ReplayExactly | nymora-protocol/src/operator/vouch.rs:69-98 | a counted ballot presented again right after a step is accepted, for whatever candidate is named then, if and only if that step opened another session under its identifier, the voucher class being the same |
| OperatorSafety.LogAlwaysPasses | nymora-protocol/src/operator/log.rs:238-287 | every reachable log passes both audits under its own key and ends frozen exactly when dissolved |
| OperatorRecords.RootsAreLogged | nymora-protocol/src/operator/mod.rs:640-653 | in every run with a log its root entries are, for each epoch from genesis to now and for no other, exactly one per class, that class's recorded root under its own name, in byte order of the names, and then the revocation root and the spend root under theirs |
| OperatorRecords.DecisionsAreLogged | nymora-protocol/src/operator/quorum.rs:203-246 | and its other entries are exactly what the run decided, in order: each policy change carried out, at its epoch with the version it reached, and the freeze |
| OperatorRecords.InOrderLists | nymora-protocol/src/operator/mod.rs:640-646 | the classes are listed once each, in the order their bytes sort |
| OperatorMembership.HistoryIsNow | nymora-protocol/src/operator/mod.rs:631-662 | history covers exactly genesis to now and its current entry is the roots of the live trees and sets |
| OperatorMembership.RootsAreFixed | nymora-protocol/src/operator/mod.rs:614-629 | whatever steps follow, no recorded root changes, and every tree and set only grows |
| OperatorMembership.RunIsLater | nymora-protocol/src/operator/mod.rs:553-587 | no run rewrites a past tree, withdraws a receipt, lifts a revocation, or moves a dissolved agora |
| OperatorMembership.AlwaysGoverned | nymora-protocol/src/operator/quorum.rs:64-86 | in every run thresholds and quorum stay at least one, the horizon at least seven, capacity never underflows and a live boundary never fails |
| OperatorMembership.PromiseKept | nymora-protocol/src/operator/vouch.rs:204-217 | before its epoch the tree does not reach a promised position, from its epoch on the leaf is there, and until then, unless dissolved, the next boundary puts it there |
| OperatorMembership.MigrationsConsumeDistinctLeaves | nymora-protocol/src/operator/migrate.rs:54-98 | two accepted migrations have different spends and consume leaves of different values, in one class or two, up to a listed collision |
| OperatorMembership.MigrationConsumes | nymora-circuits/src/stub.rs:289-345 | an accepted migration consumed a leaf landed in its class, and its spend is that leaf's |
| OperatorMembership.ConsumedLeafIsDead | nymora-circuits/src/stub.rs:259-286 | a consumed leaf satisfies no chain statement against any class's roots from its boundary on, whatever the witness, up to a listed collision |
| OperatorMembership.MembershipConserved | nymora-protocol/src/operator/mod.rs:558-579 | landed leaves less those accepted migrations consumed, staged or dropped ones included, never exceed founder plus vouched admissions, and while the agora lives landed plus staged less consumed is exactly that |
| OperatorConservation.SpentWhenLanded | nymora-protocol/src/operator/mod.rs:558-579 | in every run an accepted migration's spend is in the set exactly from the epoch its successor lands in |
| OperatorConservation.MembershipInForce | nymora-protocol/src/operator/mod.rs:558-579 | in every run the landed leaves no spend in force has consumed are exactly as many as the founder and the landed vouched admissions, whatever is staged or was dropped |
| OperatorConservation.BallotIsUnconsumed | nymora-circuits/src/stub.rs:259-286 | no ballot speaks from a leaf whose consumption is in force, up to a listed collision |
| OperatorConservation.VotesWithinMembers | nymora-protocol/src/operator/vouch.rs:111-148 | the votes one poll of a class counts never exceed its founder and its landed vouched admissions: migrating gains nobody a vote |
| OperatorConservation.ApprovalsWithinMembers | nymora-protocol/src/operator/quorum.rs:128-163 | in every run no proposal counts more approvals than that |
| OperatorConservation.SuccessorKeepsKey | nymora-circuits/src/stub.rs:289-345 | the successor of an accepted migration opens only with the credential key of the leaf it consumed, up to a listed collision |
| OperatorConservation.LineageOneNullifier | nymora-crypto/src/nullifier.rs:68-121 | through any chain of accepted migrations one subject has one nullifier: whoever opens the first leaf and whoever opens the last claim the same one |
| OperatorRevocation.ExecuteRevokes | nymora-protocol/src/operator/quorum.rs:229-235 | an executed revocation is a boundary: the epoch turned, everything open gone, the leaf in both records |
| OperatorRevocation.RevocationIsPermanent | nymora-protocol/src/operator/mod.rs:574-587 | after a revocation and any further steps the leaf is unaddressed, and no chain statement opening it holds under any later revocation root, up to a listed collision |
| OperatorRevocation.RevokedNeverMigrates | nymora-circuits/src/stub.rs:289-313 | nor does any migration statement opening it |
| RevokedDelivery.RevokedNeverAddressed | nymora-protocol/src/operator/inbox.rs:76-84 | after a revocation and any further steps every ciphertext of the envelope is another leaf's own, none the revoked one's |
| OperatorServing.ProposalsRecompute | nymora-protocol/src/operator/quorum.rs:86-98 | in every run what is served of a proposal recomputes to the identifier its approvals count under, raised in the current epoch |
| OperatorServing.RegistrationWindow | nymora-protocol/src/operator/inbox.rs:77-84 | in every run a registration is live exactly for the horizon's epochs from the one it began in, never for a revoked leaf |
| OperatorServing.RenewalDelivers | nymora-protocol/src/operator/inbox.rs:57-72 | a renewal is live at once under the key it names and changes no one else's delivery |
| OperatorServing.RetirementStops | nymora-protocol/src/operator/inbox.rs:45-56 | a retirement stops delivery to the key it names and to no one else |
| OperatorRegistrations.BoundaryRegisters | nymora-protocol/src/operator/mod.rs:558-570 | across any boundary a landing leaf with a named inbox key is registered under exactly that key from the new epoch and its name used up, and every other leaf keeps its registration and its name |
| OperatorRegistrations.RegistrationsReplay | nymora-protocol/src/operator/inbox.rs:33-84 | in every run each leaf is registered, and named, exactly as the run's accepted requests say: the founder by its founding, others by their last init or migration before they landed, until their own accepted instruction |
| OperatorRegistrations.AdmittedIsReached | nymora-protocol/src/operator/vouch.rs:40-52 | in every run a leaf landing for the first time lands under the key its last accepted init or migration named, and is delivered to under it, for exactly the horizon's epochs and unless revoked, until its own accepted instruction or a landing under a newer name |
| Acceptance.NewMemberIsEquipped | nymora-protocol/src/operator/vouch.rs:46-50 | a newly landed member whose inbox key was named finds its ciphertext in the very first envelope after, and its secret opens it |
| OperatorIntake.IntakeReplays | nymora-protocol/src/operator/vouch.rs:40-52 | in every run a leaf is pending exactly from an accepted init until it is vouched for or the agora ends, and a challenge outstanding exactly from its issue until it is presented, the epoch turns or the agora ends |
| OperatorIntake.GrantedOnce | nymora-protocol/src/operator/access.rs:57-97 | access granted for a challenge is granted once: until it is issued again the challenge gets nothing more, whatever proof comes with it |
| OperatorStanding.StepStands | nymora-protocol/src/operator/vouch.rs:40-174 | between boundaries only executed decisions and inbox instructions change classes, quorum, horizon, registrations, secrets or log |
| OperatorPolicies.StepTerms | nymora-protocol/src/operator/quorum.rs:203-228 | every step keeps each class's policy and version and the quorum, except an executed policy decision, which sets its class's threshold and the quorum and counts its version up |
| OperatorPolicies.PolicyInForce | nymora-protocol/src/operator/quorum.rs:203-228 | in every run each class's threshold is the one its latest executed policy decision set and the quorum the one the latest of any class set, the founding's until then, and every admission and decision met them |
| Agoras.AgoraState.Create | nymora-protocol/src/operator/mod.rs:407-480 | configures, checks, lands and snapshots exactly as the founding transition, and establishes the invariant |
| Agoras.AgoraState.AdvanceEpoch | nymora-protocol/src/operator/mod.rs:553-590 | in place, performs exactly the boundary transition and returns exactly the new state's envelope |
| Agoras.AgoraState.TakeSnapshot | nymora-protocol/src/operator/mod.rs:631-663 | records and logs exactly the current roots; `OperatorRecords.RootsAreLogged` says under which names |
| Agoras.AgoraState.LandStaged | nymora-protocol/src/operator/mod.rs:558-570 | the landing loop lands in staging order and stops at the first that cannot; `OperatorRegistrations.BoundaryRegisters` says under which keys |
| Agoras.AgoraState.Dissolve | nymora-protocol/src/operator/mod.rs:794-808 | drops what is open or staged, destroys the secrets, appends the final log entry |
| Agoras.AgoraState.EnvelopeNow | nymora-protocol/src/operator/mod.rs:696-772 | the nested loops over classes and sorted positions produce exactly the specified envelope |
| Agoras.AgoraState.RemainingCapacity | nymora-protocol/src/operator/mod.rs:775-786 | the counted subtraction is the class's remaining capacity, and natural |
| Agoras.AgoraState.CredentialsInit | nymora-protocol/src/operator/vouch.rs:40-52 | performs its transition and keeps the invariant |
| Agoras.AgoraState.StartVouch | nymora-protocol/src/operator/vouch.rs:69-98 | performs its transition and keeps the invariant |
| Agoras.AgoraState.VouchAttest | nymora-protocol/src/operator/vouch.rs:111-148 | performs its transition and keeps the invariant |
| Agoras.AgoraState.StageAdmission | nymora-protocol/src/operator/vouch.rs:183-218 | performs its transition |
| Agoras.AgoraState.VouchFinalize | nymora-protocol/src/operator/vouch.rs:162-174 | performs its transition, which `OperatorAnswers.AdmittedExactly` characterises, and keeps the invariant |
| Agoras.AgoraState.Migrate | nymora-protocol/src/operator/migrate.rs:54-98 | performs its transition and keeps the invariant |
| Agoras.AgoraState.Propose | nymora-protocol/src/operator/quorum.rs:58-100 | performs its transition and keeps the invariant |
| Agoras.AgoraState.Approve | nymora-protocol/src/operator/quorum.rs:128-163 | performs its transition and keeps the invariant |
| Agoras.AgoraState.Execute | nymora-protocol/src/operator/quorum.rs:185-246 | performs its transition over the four decision kinds and keeps the invariant |
| Agoras.AgoraState.InboxCertificate | nymora-protocol/src/operator/inbox.rs:33-74 | performs its transition and keeps the invariant |
| Agoras.AgoraState.RedeemAccess | nymora-protocol/src/operator/access.rs:75-97 | performs its transition, consuming the challenge either way, and keeps the invariant |
| Log.CheckLog | nymora-protocol/src/operator/log.rs:238-254 | recomputing the chain once and looking heads up decides that every head commits to exactly its prefix |
| Log.CheckConforms | nymora-protocol/src/operator/log.rs:270-287 | the two running variables decide that epochs keep their order and a freeze comes only last |
| Log.ConformsByNeighbours | nymora-protocol/src/operator/log.rs:270-287 | a log conforms if and only if no entry is dated before, or follows a freeze of, the entry just before it |
| Log.TransparencyLog.Append | nymora-protocol/src/operator/log.rs:167-179 | no earlier entry or head moves, and a log whose every head is the signed digest of its prefix stays so |
| Log.AppendKeeps | nymora-protocol/src/operator/log.rs:167-179 | every head stays the signed digest of its own prefix |
| Log.KeptVerifies | nymora-protocol/src/operator/log.rs:238-254 | a kept log verifies under its own public key |
| Log.StepPreimageInjective | nymora-protocol/src/operator/log.rs:91-118 | one chain step's bytes determine the previous head and the entry |
| Log.SharedHeadAgrees | nymora-protocol/src/operator/log.rs:204-254 | two entry lists verified against one head agree up to it, up to a listed chain collision |
| Log.DivergenceIsEquivocation | nymora-protocol/src/operator/log.rs:260-266 | two fully headed verified views that differ yield, at that position, a pair that proves the fork |
| Log.NoSelfEquivocation | nymora-protocol/src/operator/log.rs:260-266 | no two heads of one verified log prove a fork |
| Acceptance.OwnHeadsNeverFork | nymora-protocol/src/operator/log.rs:215-266 | two heads carrying signatures of one kept log's own heads verify only if they are those heads, and never prove a fork, up to listed collisions |
| Bodies.ParsesExactlyLayouts | nymora-protocol/src/bulletin.rs:312-348 | strict reading accepts exactly the canonical layouts of its epoch, with any declared counts |
| Bodies.BodyRoundTrip | nymora-protocol/src/operator/mod.rs:145-165 | a body written reads back field for field and entry for entry |
| Bodies.Encode | nymora-protocol/src/operator/mod.rs:145-165 | the writer's loops produce the canonical layout |
| Bodies.Parse | nymora-protocol/src/bulletin.rs:312-348 | the cursor reads a body from exactly its own epoch's canonical layout, and refuses everything else as malformed |
| Bulletins.EnvelopeEquipsMembers | nymora-protocol/src/operator/mod.rs:671-772 | in every run each landed leaf with a live agreeing registration has a ciphertext its secret opens, whose key opens the body, whose path rebuilds to a witness verifying the leaf under the body's class root, and whose lists rebuild to sets with exactly the body's exclusion roots; its lookup gives that ciphertext if and only if no lower position of the class is delivered to under the same key, up to a listed tag collision |
| Bulletins.CiphertextOpens | nymora-protocol/src/bulletin.rs:234-266 | a member opens its own ciphertext to the body key, its position and its truncated path |
| Bulletins.SplitsExactly | nymora-protocol/src/bulletin.rs:234-266 | a member's plaintext is taken apart if and only if it is a body key, a position, a count and exactly that many siblings |
| Inboxes.EpochKeysName | nymora-crypto/src/inbox.rs:74-103 | a body, tag or fetch key is one epoch's of one agora, and none is ever another's purpose, up to a listed collision: a key handed out opens nothing of the next epoch |
| Inboxes.AssociatedNames | nymora-crypto/src/inbox.rs:169-175 | what a seal is bound to names its agora and epoch, up to a listed collision |
| Bulletins.BodyOpens | nymora-protocol/src/bulletin.rs:312-348 | the body opens to the epoch's roots, every class found, both sets whole, and the tag key and the fetch key, each derived for its own purpose |
| Bulletins.EnvelopeAddressesMembers | nymora-protocol/src/operator/mod.rs:711-748 | in every run each ciphertext is the own one of some landed, unrevoked leaf with a live registration, at that leaf's position |
| Bulletins.HonestEnvelopeAccepted | nymora-protocol/src/bulletin.rs:148-166 | a member with an epoch to gain accepts what its operator signed |
| Acceptance.AcceptedExactly | nymora-protocol/src/bulletin.rs:148-166 | an envelope is accepted if and only if its epoch is past the member's own and its signature verifies under the pinned key over its statement digest; any other is malformed |
| Acceptance.RefusedAgain | nymora-protocol/src/bulletin.rs:154-156 | once one is accepted, no envelope of its epoch or an earlier one is accepted again, under any key |
| Acceptance.AcceptedIsServed | nymora-protocol/src/bulletin.rs:103-166 | in every run, of all envelopes carrying the signature the operator served its current one under, exactly that one is accepted, in its own agora and while its epoch is to gain, up to listed collisions, the reduction of digests to the field included |
| Acceptance.ForkIsTwoStatements | nymora-protocol/src/bulletin.rs:171-196 | a fork is proved exactly by two envelopes of one epoch, each acceptable to someone without an epoch, saying different things |
| Acceptance.EnvelopeCarriesHead | nymora-protocol/src/operator/mod.rs:696-772 | in every run the current envelope carries a head exactly when there is a log, and that head commits to the whole log as it stands and verifies under the log's key |
| Bulletins.LookupFindsOwn | nymora-protocol/src/operator/mod.rs:236-240 | the lookup by tag finds a member's own ciphertext if and only if its position is the lowest of its class delivered to under its key, up to a listed tag collision |
| Redelivery.SharedKeyMisleads | nymora-protocol/src/operator/inbox.rs:57-72 | a renewal to the key a lower position of the class is delivered to under is taken, and from then on the member's own tag finds another ciphertext, up to a listed tag collision |
| Bulletins.ListPreimageInjective | nymora-protocol/src/bulletin.rs:127-136 | the list digest's preimage determines the list, order and count included |
| Bulletins.StatementInjective | nymora-protocol/src/bulletin.rs:103-122 | the statement digest's preimage determines everything the signature covers |
| Redelivery.StepDelivers | nymora-protocol/src/operator/inbox.rs:33-84 | the key each leaf is delivered to after a step, and the entry it logs, told from the registrations, horizon and log before it |
| Redelivery.ServedAgain | nymora-protocol/src/operator/mod.rs:511-514 | in every run a live agora serves the same envelope after a step if and only if the step crosses no boundary, ends and logs nothing, and leaves each landed leaf the key it is delivered to; the only-if half up to a listed sealing collision |
| Redelivery.RedeliveryEquivocates | nymora-protocol/src/bulletin.rs:171-196 | the honest operator's two envelopes around a step prove a fork if and only if the step crosses no boundary and disturbs what is served, up to listed collisions |
| Redelivery.ServedAcross | nymora-protocol/src/operator/mod.rs:511-514 | between any two servings, whatever steps lie between, the same value is served if and only if no boundary was crossed, nothing ended or was logged, and every landed leaf is delivered to under the same key at both; the only-if half up to a listed sealing collision |
| Redelivery.EquivocatesAcross | nymora-protocol/src/bulletin.rs:171-196 | any two honest servings prove a fork if and only if they are of one epoch and were not the same so, up to listed collisions |
| Redelivery.HonestRedeliveryEquivocates | nymora-protocol/src/bulletin.rs:171-196 | an honest operator serving its envelope before and after a delivered registration is retired is accused of a fork |
| Canonical.SubjectInjective | nymora-protocol/src/decision.rs:87-136 | a subject identifier's preimage determines agora, epoch, class, decision and nonce |
| Canonical.ChainBindingInjective | nymora-circuits/src/stub.rs:59-110 | the stub's binding preimage determines the whole public input |
| Canonical.ChainProofNames | nymora-circuits/src/stub.rs:59-110 | a proof of a chain statement verifies for no other statement: not for another agora, epoch, root, action, subject or nullifier, up to a listed collision |
| Canonical.MigrationProofNames | nymora-circuits/src/stub.rs:113-123 | nor does a migration's |
| Canonical.InboxProofNames | nymora-circuits/src/stub.rs:125-135 | nor does an inbox instruction's, so a retirement is never taken for a renewal |
| Cursor.TakeFramedExact | nymora-core/src/bundle.rs:167-187 | reading a framed field accepts exactly what framing writes, for any declared length |
| Cursor.TakeEntriesExact | nymora-protocol/src/bulletin.rs:437-449 | reading fixed-width entries accepts exactly those bytes, refusing totals no u64 holds |
| Bundles.DecodesExactlyEncodings | nymora-core/src/bundle.rs:103-163 | bundle decoding accepts exactly the bytes encoding writes, in both directions |
| Bundles.AcceptedReencodes | nymora-core/src/bundle.rs:135-163 | every accepted input re-encodes to itself |
| Bundles.Encode | nymora-core/src/bundle.rs:103-124 | writes the encoding at a moving offset and nothing past it, or refuses a short buffer untouched |
| Bundles.Decode | nymora-core/src/bundle.rs:135-163 | the cursor reads a bundle from exactly the bytes writing it gives, and refuses everything else as malformed |
| Handoffs.DecodesExactlyEncodings | nymora-core/src/handoff.rs:128-190 | handoff decoding accepts exactly the bytes encoding writes, in both directions |
| Handoffs.AcceptedReencodes | nymora-core/src/handoff.rs:162-190 | every accepted input re-encodes to itself |
| Handoffs.Encode | nymora-core/src/handoff.rs:128-151 | writes the encoding at a moving offset and nothing past it, or refuses a short buffer untouched |
| Handoffs.Decode | nymora-core/src/handoff.rs:162-190 | the cursor reads a handoff from exactly the bytes writing it gives, and refuses everything else as malformed |
| Credentials.StoreMaterial | nymora-protocol/src/credential.rs:201-226 | the writes and their unwinding, in order, under any failures |
| Credentials.MaterialAllOrNone | nymora-protocol/src/credential.rs:201-226 | from empty slots, all four with exactly the material or the store as it was |
| Credentials.OverwritingCanTear | nymora-protocol/src/credential.rs:201-226 | over any store, a failed storing unwinds exactly the slots written before the failure, so leaves a partial credential if and only if the first write failed over one or a later one failed while a slot from it on was held |
| Credentials.SecondWriteTears | nymora-protocol/src/credential.rs:201-226 | one such input: a whole credential and the second write failing |
| Credentials.CreateAllOrNone | nymora-protocol/src/credential.rs:154-198 | creation succeeds if and only if the root names a point and no write fails; it then stored a key, an opening and an inbox secret each minted from its own entropy and the root, and returned their leaf and inbox, and otherwise nothing |
| Credentials.CompleteAllOrNone | nymora-protocol/src/credential.rs:666-710 | completing a migration does too, exactly for a handoff of this agora, keeping the credential key under an opening and inbox of its own, and returning its leaf and the spend of the old one |
| Credentials.MintedValue | nymora-crypto/src/field.rs:105-109 | a minted secret is its entropy modulo 2^254 and canonical, a signing secret modulo 2^251, an inbox secret the clamp of its entropy |
| Credentials.Discard | nymora-protocol/src/credential.rs:345-362 | the deletion loop removes exactly the keys and certificates from the cursor up to the epoch |
| Credentials.Roll | nymora-protocol/src/credential.rs:387-421 | checks and signature first, then sweep, then key, certificate and cursor, unwinding the key |
| Credentials.RollAnswer | nymora-protocol/src/credential.rs:387-421 | a roll succeeds if and only if a discard would, the record's buffer has room, the root signs and no write fails |
| Credentials.DiscardAnswer | nymora-protocol/src/credential.rs:713-734 | a discard succeeds if and only if the cursor is absent, or readable, not past the epoch and at most a hundred thousand epochs before it |
| Credentials.CursorReads | nymora-protocol/src/credential.rs:713-726 | the cursor reads exactly as it was written, and which refusal any other bytes give |
| EpochRecords.DecodesExactlyRecords | nymora-protocol/src/credential.rs:472-483 | a stored record decodes exactly from a framed public key and a framed signature |
| EpochRecords.RollCertifies | nymora-protocol/src/credential.rs:387-455 | after a successful roll the record reads back as the stored secret's public key and the root's signature, and they certify that key for this agora and epoch |
| Credentials.Authorize | nymora-protocol/src/credential.rs:583-646 | every signature and the encoding first, then the acting material is destroyed |
| Credentials.AuthorizeAnswer | nymora-protocol/src/credential.rs:583-646 | an authorization succeeds if and only if the stored credential is whole and readable, both signatures are made, the buffers have room and the cursor is readable; and what it writes is that credential's own material |
| Credentials.RefusedRollChangesNothing | nymora-protocol/src/credential.rs:387-410 | a roll refused or unsigned changes nothing |
| Credentials.RefusedAuthorizationKeeps | nymora-protocol/src/credential.rs:583-630 | an authorization that fails to sign or encode destroys nothing |
| Credentials.DiscardLeavesUnreached | nymora-protocol/src/credential.rs:345-362 | what survives a discard is exactly what lay outside the cursor's range |
| Credentials.RollLeavesUnreached | nymora-protocol/src/credential.rs:387-421 | what older material survives a successful roll is exactly what lay outside the cursor's range |
| Credentials.AuthorizeLeavesStrays | nymora-protocol/src/credential.rs:634-646 | what acting material survives a successful authorization is exactly the epoch slots away from the cursor |
| Credentials.AuthorizationMissesKey | nymora-protocol/src/credential.rs:634-646 | an authorization after a roll whose cursor write failed leaves the key that roll stored |
| Credentials.NothingOutlives | nymora-protocol/src/credential.rs:345-421 | in every history whose cursor writes succeed, whatever else fails, a successful roll or discard leaves nothing older and a successful authorization nothing that acts |
| Credentials.FirstCursorWriteLost | nymora-protocol/src/credential.rs:415-420 | if the first cursor write fails, the key just stored survives the next successful roll |
| Credentials.OthersUntouched | nymora-protocol/src/credential.rs:583-646 | no operation on one agora touches another's slots |
| PlannedMigration.HandoffArrives | nymora-protocol/src/credential.rs:583-630 | the bytes the old device writes decode to exactly its material, root key and two certificates |
| PlannedMigration.HandoffProves | nymora-protocol/src/credential.rs:666-710 | what the successor derived satisfies the migration statement against any tree holding the old leaf and any set not revoking it |
| PlannedMigration.ProvedIsAccepted | nymora-protocol/src/operator/migrate.rs:54-98 | a proved migration is accepted if and only if the agora lives, the class has room, and spend and successor are new |
| PlannedMigration.PlannedMigrationAccepted | nymora-protocol/src/operator/migrate.rs:54-98 | in every run an honest planned migration, carried as bytes, proves, and is accepted exactly then |
| PlannedMigration.RetirementAccepted | nymora-protocol/src/credential.rs:605-625 | the retirement the old device signed, carried in the handoff, proves, is taken if and only if the agora lives and the old leaf is registered under the old key, and stops delivery to that leaf alone |
| LiveAuthentication.LockExactly | nymora-protocol/src/live_auth.rs:106-124 | a roster locks if and only if it has at least two commitments, no two alike, one's own among them; and its one position is recorded |
| LiveAuthentication.FinishExactly | nymora-protocol/src/live_auth.rs:150-178 | a round finishes if and only if every reveal opens its own commitment, the own slot holds the own nonce and the caller made room; over every nonce revealed, and which refusal otherwise |
| LiveAuthentication.RoundsApart | nymora-crypto/src/live_auth.rs:79-105 | two finished rounds share a context if and only if they revealed the same nonces, as many times each, over the same channel metadata, and their strings then agree and otherwise differ, up to listed collisions |
| LiveAuthentication.LockRoster | nymora-protocol/src/live_auth.rs:106-124 | the two scans decide exactly the lock |
| LiveAuthentication.FinishRound | nymora-protocol/src/live_auth.rs:150-178 | checks every reveal, then sorts the scratch in place and derives the context, which `LiveAuthentication.RoundsApart` tells apart from every other round's |
| LiveAuthentication.SortNonces | nymora-crypto/src/live_auth.rs:79-80 | the in-place sort orders the first nonces and touches nothing else |
| LiveAuthentication.ContextIgnoresOrder | nymora-crypto/src/live_auth.rs:79-87 | the context is the same for every arrival order |
| LiveAuthentication.RoundAgrees | nymora-protocol/src/live_auth.rs:150-178 | participants whose rosters are permutations and who finish with the same metadata derive the same context and authentication string, up to a listed commitment collision |
| Base64.RoundTrip | nymora-crypto/src/armor.rs:78-152 | decoding letters undoes encoding bytes |
| Base64.DecodeAlike | nymora-crypto/src/armor.rs:200-225 | letters decode to the same bytes if and only if they are the same but for the unused low bits of the last letter of a short last group |
| Armors.Armor | nymora-crypto/src/armor.rs:108-140 | writes exactly the announced length, the armored text, and nothing past it |
| Armors.Unarmor | nymora-crypto/src/armor.rs:182-237 | the group loop into the caller's buffer decodes exactly as specified, refusing what the buffer cannot hold |
| Armors.UnarmorRecovers | nymora-crypto/src/armor.rs:182-237 | kind and payload come back from any arrival that spaces out the letters, pads the text and quotes it once, given room for payload and five bytes |
| Armors.ArmorRoundTrip | nymora-crypto/src/armor.rs:108-237 | the armored text as written comes back whole |
| Armors.AlteredIsCaught | nymora-crypto/src/armor.rs:92-237 | a payload under another's checksum, or passed off as another kind, is refused, but for a clash of the four bytes |
| Armors.QuotesSurround | nymora-crypto/src/armor.rs:155-171 | each of the four pairs of quotes is the one stripped |
| Armors.AcceptedLetters | nymora-crypto/src/armor.rs:182-237 | the letter strings accepted for a kind and payload are exactly the armored text's, but for the unused low bits of its last letter |
| Armors.LowBitsIgnored | nymora-crypto/src/armor.rs:200-225 | an armored text with a short last group is still accepted with its last letter changed |
| Armors.CanonicalExactly | nymora-crypto/src/armor.rs:182-237 | a kind and payload have one accepted letter string if and only if payload length plus five is a multiple of three |

## Left out

- Curve and field arithmetic, the Poseidon rounds, SHA-256, HKDF, X25519 and the cipher: uninterpreted, with only the laws named above.
- The circuits, gadgets and proving backend of `nymora-plonk`: the CPU evaluators carry the same statements.
- Soundness of a zero-knowledge backend: the operator is modelled over the stub, whose verification re-evaluates the statement.
- Constant-time behaviour, zeroization, redacted debug output and indistinguishable refusals: the model keeps the three error kinds and the values computed.
- `nymora-core/src/invitation.rs`, `nymora-crypto/src/tag.rs`, `nymora-proofs/src/action.rs` and the read-only lookups of `nymora-protocol/src/operator/access.rs`: the same shapes again, or single lookups.
- Depth 0 and depths of 64 and more, which no network instantiates.
- Failures of loading and deleting: deletes are total, loads fail only on a short buffer or a corrupt width, and writes fail on any schedule.
- Key store capabilities, user presence and transport: a key store's answer is a parameter.
- Aliasing between classes' trees: a class's tree is held by value in the operator's map, and its root taken from the meaning `BatchTree.Tree.Root` is proved to compute.
- Bulletins.EnvelopeEquipsMembers: assumes the body's lists are addressable (their byte lengths fit a u64), as any list in memory is.
