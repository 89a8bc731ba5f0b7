# Verified models of the Pulsar core

Pulsar streams a desktop over UDP between two nodes. This project models four parts of it in
Dafny, in the form the code has them, and proves what they promise over all inputs and all runs.

**Reed-Solomon erasure codec.** `Fields` is the field trait as a dictionary with laws;
`LinearAlgebra`, `Polynomials` and `Matrices` carry the mathematics and the in-place Gauss-Jordan
elimination on a flat array; `ErasureCode`, `Erasures` and `Codec` are encoding, verification,
shard-by-shard encoding, reconstruction and the decode-matrix cache on shard buffers overwritten in
place. `Gf256` proves the laws for GF(2^8) from polynomial multiplication; `Tables` and `Slices` are
the generated tables and the unrolled and vector slice multiplication. Main results:
`LostShardsComeBack`, `ReedSolomon.ReconstructInternal`, `Matrix.Invert`, `VandermondeKernel`,
`ShardsDetermineData`, `Slices.MulSlice`. `Judged` and its variants say when a call is accepted and
which error it gives otherwise, in the buffers' lengths alone.

**Session security.** `Replay` is the 1024-bit anti-replay window (section 3.4.3 of RFC 4303, the
multi-word form of RFC 6479): a bitmap shifted in place that refines a set. `SecureSession` is the
data phase with concurrent senders on both ends over a network that loses, duplicates, reorders and
forges; the AEAD (section 2.8 of RFC 8439) is ideal. Main results: `ReplayFilter`,
`NoncesNeverRepeat`, `DeliveredAtMostOnce`, `DeliversWhatWasSent`, `ReceiveOutcome`.

**Connection protocol.** `Handshake` is key derivation and the handshake blob, with Diffie-Hellman a
function that commutes (section 6.1 of RFC 7748). `Connection` is the session table and its datagram
handlers, `Nodes` the object that updates it; `Entries` looks at it one session id at a time.
`KeyAgreement` (with `AgreementSteps` and `Agreement`), `Pinning` and `Paths` are state machines
whose steps are whole handlers, because the receive loop handles one datagram at a time, and the
lock sections of the connect calls and of the path comparison. Main results: `SessionsAgree` (and
`SessionsAgreeIff`, and `DropBreaksAgreement`, which shows that its one condition is needed),
`PinHolds` with its exact condition `StaysKeptIff` (and `LostPin`, where the code breaks it),
`GivingUpReports` (and `FalseAlarm`), `BindingsSeparate`, `PathSafety`, `ComparisonOutcome`,
`ProvenForGood`.

**Adaptive rate control.** `Ladder` builds and picks operating points. `Controller` is the
controller's state with one function per method, `RateController` the object that updates it step
by step; `RateSafety`, `NoSawtooth`, `PointSafety` and `Convergence` are its theorems over every run
of windows, fast polls and settings, and `WindowOutcomes` says what a window does to the rate in
terms of its samples. `Trendlines` is the delay-gradient estimator, `TrendSlope` bounds its fit,
`TrendDirection`, `TrendRamp` and `RampVerdict` say which way it leans. Main results:
`TargetReachesCap`, `CeilingRisesSlowly`, `StaysUnderIff`, `BloatCuts`, `RisesAreEarned`,
`HostBoundStepsAreBounded`, `RatesStayInBounds`, `OffsetsDoNotMatter`, `SteadyStaysNormal`,
`NeverTheWrongWay`, `RampIsJudged`.

`Options` holds the optional value and `Delay` the estimator's three hypotheses, shared by the rest.

Conventions. Clocks, randomness (salts, ephemeral keys, session ids) and the network are parameters
or steps. Floating point is real arithmetic. A method that changes state is proved against a
function of the old state, and the theorems are about that function. Where a comment in the code
and the code disagree, the model follows the code: the ladder's native point is not always the top
rung, and nothing here says that it is.

## Model

| member | source | states |
|---|---|---|
| Polynomials.Division | crates/reed-solomon-erasure/src/matrix.rs:263-276 | dividing a polynomial by (x - p): its value at x is the remainder (its value at p) plus (x - p) times the quotient's value, for every field |
| Polynomials.RootCount | crates/reed-solomon-erasure/src/matrix.rs:263-276 | a coefficient list with as many distinct roots as coefficients is zero |
| Polynomials.VandermondeKernel | crates/reed-solomon-erasure/src/matrix.rs:263-276 | any k distinct rows of a k-column Vandermonde matrix over the first `order` field elements have a trivial kernel |
| Matrices.SwapKeepsKernel | crates/reed-solomon-erasure/src/matrix.rs:178-190 | swapping two rows keeps the solution set |
| Matrices.ScaleKeepsKernel | crates/reed-solomon-erasure/src/matrix.rs:195-223 | scaling a row by a nonzero element keeps the solution set |
| Matrices.AddRowKeepsKernel | crates/reed-solomon-erasure/src/matrix.rs:223-247 | adding a multiple of one row to another keeps the solution set |
| Matrices.KernelVector | crates/reed-solomon-erasure/src/matrix.rs:205-217 | when no pivot is left in a column of the staircase, a nonzero solution is constructed from the columns before it |
| Matrices.EliminationInverts | crates/reed-solomon-erasure/src/matrix.rs:249-261 | if [A|I] and a matrix whose left block is I have the same solutions, the right block is a two-sided inverse of A |
| Matrices.Matrix.SwapRows | crates/reed-solomon-erasure/src/matrix.rs:178-190 | the flat array holds the matrix with the two rows exchanged, nothing else changed |
| Matrices.Matrix.FindPivot | crates/reed-solomon-erasure/src/matrix.rs:198-212 | same solutions; afterwards the diagonal entry is zero only if every entry below it is |
| Matrices.Matrix.EliminateColumn | crates/reed-solomon-erasure/src/matrix.rs:213-233 | same solutions; the staircase grows by one column |
| Matrices.Matrix.ClearAbove | crates/reed-solomon-erasure/src/matrix.rs:235-245 | same solutions; the column is zero above the diagonal |
| Matrices.Matrix.GaussianElim | crates/reed-solomon-erasure/src/matrix.rs:195-247 | the in-place loops keep the solution set throughout; success leaves the identity on the left, failure leaves a nonzero solution of the left block |
| Matrices.Matrix.Augment | crates/reed-solomon-erasure/src/matrix.rs:141-160 | every row is the row of the first matrix followed by the row of the second |
| Matrices.Matrix.SubMatrix | crates/reed-solomon-erasure/src/matrix.rs:162-170 | exactly the block of rows and columns asked for |
| Matrices.Matrix.Multiply | crates/reed-solomon-erasure/src/matrix.rs:119-139 | the flat triple loop computes the matrix product |
| Matrices.Matrix.Invert | crates/reed-solomon-erasure/src/matrix.rs:249-261 | a returned matrix is a two-sided inverse, and one is returned exactly when the kernel is trivial; otherwise SingularMatrix |
| Matrices.NewVandermonde | crates/reed-solomon-erasure/src/matrix.rs:263-276 | the constructed buffer is the Vandermonde matrix of the specification |
| ErasureCode.BuildMatrixIsCoding | crates/reed-solomon-erasure/src/core.rs:430-436 | Vandermonde times the inverse of its top block: identity on top, and every choice of k distinct rows invertible |
| ErasureCode.Systematic | crates/reed-solomon-erasure/src/core.rs:430-436 | the first k shards of every codeword are the data |
| ErasureCode.DecodeRestores | crates/reed-solomon-erasure/src/core.rs:699-733 | the inverse of any k surviving rows times the surviving shards is the data |
| ErasureCode.ShardsDetermineData | crates/reed-solomon-erasure/src/core.rs:430-436 | data sets whose codewords agree on any k shards are equal (maximum distance) |
| Erasures.FirstValidIsChoice | crates/reed-solomon-erasure/src/core.rs:794-845 | the first k present indices are k distinct shard numbers whenever k are present |
| Erasures.InvalidDeterminesMask | crates/reed-solomon-erasure/src/core.rs:699-733 | the list of missing indices determines which shards are present, so the cache key determines the decode matrix |
| Codec.CheckSizes | crates/reed-solomon-erasure/src/macros.rs:142-178 | shard sizes are accepted exactly when all are equal and nonzero |
| Codec.MulSlice | crates/reed-solomon-erasure/src/lib.rs:99-110 | the trait's default loop scales the slice in place |
| Codec.MulSliceAdd | crates/reed-solomon-erasure/src/lib.rs:112-121 | the trait's default loop adds the scaled slice in place |
| Codec.CodeSingleSlice | crates/reed-solomon-erasure/src/core.rs:494-511 | one input overwrites (first) or is accumulated into every output by its matrix column |
| Codec.CodeSomeSlices | crates/reed-solomon-erasure/src/core.rs:483-492 | after all inputs the outputs are the matrix times the inputs, inputs untouched |
| Codec.BuildMatrix | crates/reed-solomon-erasure/src/core.rs:430-436 | returns a coding matrix; the inner `invert().unwrap()` cannot fail |
| Codec.InvertRows | crates/reed-solomon-erasure/src/core.rs:713-724 | the second `unwrap`: the chosen rows always invert |
| Codec.NewCodec | crates/reed-solomon-erasure/src/core.rs:445-469 | Ok exactly for k, m >= 1 and k + m <= field order, each error in its own case, and the codec satisfies its invariant |
| Codec.ReedSolomon.constructor | crates/reed-solomon-erasure/src/core.rs:445-469 | a fresh codec has a coding matrix and an empty cache |
| Codec.ReedSolomon.EncodeSep | crates/reed-solomon-erasure/src/core.rs:619-634 | Ok exactly for k data and m parity buffers that are all of one nonzero length, each count, emptiness and size error in its own case, and then nothing touched; else parity is the parity rows times the data, data untouched |
| Codec.ReedSolomon.Encode | crates/reed-solomon-erasure/src/core.rs:599-617 | Ok exactly for k + m buffers of one nonzero length, with TooFewShards, TooManyShards, EmptyShard and IncorrectShardSize each in its own case, and then nothing touched; else the buffers hold the codeword of the data |
| Codec.ReedSolomon.Verify | crates/reed-solomon-erasure/src/core.rs:639-653 | refused exactly as encoding is; else true exactly when the shards are the codeword of their data; shards untouched |
| Codec.ReedSolomon.VerifyWithBuffer | crates/reed-solomon-erasure/src/core.rs:513-534 | shards and buffer accepted exactly when the counts fit and all lengths are equal and nonzero; same verdict, and the buffer holds the correct parity |
| Codec.ReedSolomon.EncodeSingle | crates/reed-solomon-erasure/src/core.rs:547-575 | InvalidIndex exactly past the data shards, else refused exactly as encoding is; one data shard's contribution to every parity shard, everything else untouched |
| Codec.ReedSolomon.EncodeSingleSep | crates/reed-solomon-erasure/src/core.rs:578-596 | InvalidIndex, count and size errors exactly in their cases; the same with parity passed separately |
| Codec.ReedSolomon.GetDataDecodeMatrix | crates/reed-solomon-erasure/src/core.rs:699-733 | whether it comes from the cache, after any history and evictions, or is computed, the result is the one inverse of the first k present rows; the cache stays correct and bounded |
| Codec.EntryDecodes | crates/reed-solomon-erasure/src/core.rs:699-733 | an entry cached under a key decodes every erasure pattern with that key |
| Codec.CachedEqualsFresh | crates/reed-solomon-erasure/src/core.rs:699-733 | a cached matrix equals the one a fresh inversion gives |
| Codec.EqualSizesPass | crates/reed-solomon-erasure/src/core.rs:742-771 | present shards of one nonzero size pass the scan |
| Codec.Separate | crates/reed-solomon-erasure/src/core.rs:794-845 | the second pass: valid and invalid index lists, survivors and fresh buffers for exactly the missing shards asked for |
| Codec.GatherData | crates/reed-solomon-erasure/src/core.rs:868-912 | merging survivors and rebuilt shards gives all data shards in order |
| Codec.RebuildData | crates/reed-solomon-erasure/src/core.rs:847-866 | missing data shards become decode rows times the survivors |
| Codec.RebuildParity | crates/reed-solomon-erasure/src/core.rs:868-925 | missing parity shards become parity rows times all data |
| Codec.RestoredAgrees | crates/reed-solomon-erasure/src/core.rs:735-925 | rebuilt shards belong to every codeword that the survivors belong to |
| Codec.ReedSolomon.ReconstructInternal | crates/reed-solomon-erasure/src/core.rs:735-925 | every error exactly in its case (counts, too few present, an empty or a differing shard), and it leaves every shard as it was; success leaves present shards alone, fills all data (and, for `reconstruct`, parity) shards, and they are those of the survivors' codeword |
| Codec.CheckJudges | crates/reed-solomon-erasure/src/core.rs:735-776 | what the first pass says of any shard list: each error exactly in its case, the first shard that is empty or of another length decides which, and Ok exactly when none is and k are present |
| Codec.LostShardsComeBack | crates/reed-solomon-erasure/src/core.rs:599-697 | k + m buffers of one nonzero length: encode, lose any set of shards, reconstruct: Ok exactly when at least k shards are left, and then every data shard (and every parity shard unless data only) is there and is the encoded one |
| Codec.EncodedPassesCheck | crates/reed-solomon-erasure/src/core.rs:740-774 | shards of one codeword pass the checks exactly when at least k are left, else TooFewShardsPresent |
| Codec.PartialAdvances | crates/reed-solomon-erasure/src/core.rs:494-511 | parity of the first j data shards plus shard j is parity of the first j + 1 |
| Codec.AllPartsIsCodeword | crates/reed-solomon-erasure/src/core.rs:107-231 | partial parity over all k data shards is the codeword |
| Codec.ShardByShard.Encode | crates/reed-solomon-erasure/src/core.rs:153-216 | TooManyCalls, and otherwise exactly the errors of one-shot encoding, change nothing; the inner unwrap cannot fail; parity advances by one partial sum and the k-th call leaves what one-shot encode does |
| Codec.ShardByShard.Reset | crates/reed-solomon-erasure/src/core.rs:128-141 | LeftoverShards exactly in mid-run, else back to zero |
| Gf256.MulCommutes | crates/reed-solomon-erasure/src/galois_8.rs:68-70 | polynomial multiplication modulo x^8+x^4+x^3+x^2+1 commutes |
| Gf256.MulAssociates | crates/reed-solomon-erasure/src/galois_8.rs:68-70 | ... and associates |
| Gf256.MulDistributes | crates/reed-solomon-erasure/src/galois_8.rs:57-70 | ... and distributes over xor |
| Gf256.GenOrder | crates/reed-solomon-erasure/build.rs:13-29 | no power of x below the 255th is one, so x generates every nonzero byte |
| Gf256.GenCovers | crates/reed-solomon-erasure/build.rs:13-29 | every nonzero byte is a power of x below 255 |
| Gf256.DivUndoesMul | crates/reed-solomon-erasure/src/galois_8.rs:73-87 | division undoes multiplication by every nonzero byte |
| Gf256.Gf8IsLawful | crates/reed-solomon-erasure/src/galois_8.rs:9-48 | GF(2^8) satisfies every law the codec is proved from |
| Tables.GenLogTable | crates/reed-solomon-erasure/build.rs:13-29 | the doubling loop stores the discrete logarithm of every nonzero byte |
| Tables.GenExpTable | crates/reed-solomon-erasure/build.rs:32-42 | entry i is x^i for all 510 entries |
| Tables.Multiply | crates/reed-solomon-erasure/build.rs:44-53 | adding logs is polynomial multiplication, zero operands included |
| Tables.GenMulTable | crates/reed-solomon-erasure/build.rs:55-68 | every one of the 65536 entries is the product |
| Tables.GenMulTableHalf | crates/reed-solomon-erasure/build.rs:70-94 | the low and high tables hold the products of the low and the high nibbles |
| Tables.Divide | crates/reed-solomon-erasure/src/galois_8.rs:73-87 | the log-table quotient times the divisor is the dividend, and it is the field's quotient; 0/0 is 0 as in the code |
| Tables.Power | crates/reed-solomon-erasure/src/galois_8.rs:90-103 | the lookup after repeated subtraction of 255 is the n-fold product, for every n |
| Slices.MulSlicePure | crates/reed-solomon-erasure/src/galois_8.rs:137-177 | the loop unrolled by four multiplies every byte from the given start, for every length |
| Slices.MulSliceXorPure | crates/reed-solomon-erasure/src/galois_8.rs:179-219 | the unrolled loop adds the product to every byte |
| Slices.MaskedLane | crates/reed-solomon-erasure/simd_c/reedsolomon.c:264-293 | masking a 64-bit lane, before or after the shift by four, gives each byte's low or high nibble; bits dragged in from the next byte vanish |
| Slices.NibblesMultiply | crates/reed-solomon-erasure/simd_c/reedsolomon.c:495-515 | the two nibble lookups of a byte, added, are its product |
| Slices.LaneMultiplies | crates/reed-solomon-erasure/simd_c/reedsolomon.c:495-515 | eight bytes of a lane are multiplied, and added to the old ones when asked |
| Slices.VectorMultiplies | crates/reed-solomon-erasure/simd_c/reedsolomon.c:495-515 | so are the sixteen bytes of a vector |
| Slices.GalMul | crates/reed-solomon-erasure/simd_c/reedsolomon.c:517-556 | the vector loop handles the largest multiple of sixteen bytes and leaves the rest alone |
| Slices.MulSlice | crates/reed-solomon-erasure/src/galois_8.rs:291-305 | vector prefix plus scalar tail equals the field's slice multiplication for every nonempty length |
| Slices.MulSliceXor | crates/reed-solomon-erasure/src/galois_8.rs:313-327 | ... and multiply-add |
| Replay.AcceptKeepsOk | crates/pulsar-core/src/crypto.rs:370-400 | accepting keeps the specification's set below its highest member |
| Replay.FreshIffAcceptable | crates/pulsar-core/src/crypto.rs:370-400 | the window test is: not seen, and no accepted number 1024 or more ahead |
| Replay.ReplayFilter | crates/pulsar-core/src/crypto.rs:370-400 | over every sequence of accept calls the verdict on each number is true exactly when it was not offered before and no earlier one is 1024 or more ahead: at most once, and nothing fresh in the window refused |
| Replay.WordsShifted | crates/pulsar-core/src/crypto.rs:335-364 | word-wise shifting with carry is a 1024-bit shift, for every amount |
| Replay.ReplayWindow.GetBit | crates/pulsar-core/src/crypto.rs:319-324 | reads the bit of the given offset |
| Replay.ReplayWindow.SetBit | crates/pulsar-core/src/crypto.rs:326-331 | sets that bit and no other |
| Replay.ReplayWindow.Shift | crates/pulsar-core/src/crypto.rs:335-364 | the in-place descending loop refines the 1024-bit shift |
| Replay.ReplayWindow.Accept | crates/pulsar-core/src/crypto.rs:370-400 | bit o is set exactly when high - o was accepted; verdict and new state are those of the set specification |
| SecureSession.NonceInjective | crates/pulsar-core/src/crypto.rs:454-471 | the nonce determines direction and sequence number |
| SecureSession.RunKeepsInv | crates/pulsar-core/src/connection/session.rs:181-231 | numbers are handed out once and sealed at most once, in every interleaving of senders and receivers on both ends; what is sealed under them is DeliversWhatWasSent |
| SecureSession.NoncesNeverRepeat | crates/pulsar-core/src/connection/session.rs:181-231 | no two seals of a run share a nonce |
| SecureSession.DeliveredAtMostOnce | crates/pulsar-core/src/connection/handlers.rs:801-816 | everything handed up was sealed by the other end with that payload, and never twice |
| SecureSession.DeliversWhatWasSent | crates/pulsar-core/src/connection/session.rs:181-231 | over every run: a seal under number s carries the payload of its sender's send number s, counting from zero, and every delivery carries that of the other end's |
| SecureSession.SendArrives | crates/pulsar-core/src/connection/session.rs:181-231 | after any run, the next payload sent, sealed and received at a wired end whose window still takes the number is handed up, unchanged |
| SecureSession.WindowRemembersArrived | crates/pulsar-core/src/crypto.rs:492-518 | the replay window is a function of the authentic arrivals alone |
| SecureSession.ReceiveOutcome | crates/pulsar-core/src/connection/handlers.rs:801-816 | the window takes a datagram's number exactly when it authenticates and is acceptable after the authentic arrivals so far, and the payload is handed up exactly when the end is wired too; anything else, forgeries included, changes nothing |
| SecureSession.WiredAfter | crates/pulsar-core/src/connection/node.rs:533-558 | an initiator's end is wired exactly after its connect call put the channel in place, a responder's from the start |
| SecureSession.UnwiredIsLost | crates/pulsar-core/src/connection/handlers.rs:801-816 | a number once taken is spent: receiving the same datagram again, at any later time, changes nothing, so a payload that came before the wiring is lost |
| Handshake.SortedSymmetric | crates/pulsar-core/src/crypto.rs:222-228 | sorting a pair does not depend on who sorts |
| Handshake.KeysAgree | crates/pulsar-core/src/crypto.rs:173-285 | both ends derive the same key, binding and forward-secrecy flag from each other's public values, in both key versions; that the binding depends on the key is BindingsSeparate |
| Handshake.BindingsSeparate | crates/pulsar-core/src/crypto.rs:426-447 | sessions with different keys, such as the two legs of a man in the middle, have different channel bindings, unless the two label-and-key messages collide |
| Handshake.BlobRoundTrip | crates/pulsar-core/src/connection.rs:106-164 | parsing a blob gives back key, salt, ephemeral key, capabilities, and the LAN candidate exactly when it is a specified IPv4 address with a port |
| Handshake.LegacyBlob | crates/pulsar-core/src/connection.rs:106-134 | a blob without the extension, or with another version of it, gives key and salt only; under 64 bytes it is refused |
| Handshake.PrivateRanges | crates/pulsar-core/src/connection.rs:166-172 | the private addresses are exactly 10/8, 127/8, 169.254/16, 172.16/12 and 192.168/16, as ranges of 32-bit numbers |
| Nodes.Node.OnPeerFound | crates/pulsar-core/src/connection/handlers.rs:131-209 | no other id's entry changes; a state is made or replaced exactly when our handshake values are pending and the pin accepts the key, with those values, the address given and the peer's LAN candidate, and exactly then a waiting call is woken; a pin is given up only for a state with that key |
| Nodes.Node.OnIncoming | crates/pulsar-core/src/connection/handlers.rs:312-417 | no other id's entry changes, an existing state is never replaced, a new one has the values of the message, and any answer carries the handshake values of the state then held |
| Nodes.Node.OnHello | crates/pulsar-core/src/connection/handlers.rs:599-679 | no answer exactly for an id we have in flight; no other entry and no existing state changes; a new state has the sender's key, address and capabilities; an answer has the values and the version of the state then held |
| Nodes.Node.OnHelloAck | crates/pulsar-core/src/connection/handlers.rs:682-768 | no other id's entry changes; under a pinned id, any state left has the pinned key; a new state uses our pending values and the ack's key and address; a waiting direct call is woken exactly when a state is in place afterwards, and when that is, is said |
| Nodes.Node.OnPunch | crates/pulsar-core/src/connection/handlers.rs:446-532 | no other session changes; a stranger's punch, or any on a relay-only node, changes nothing; a candidate's proves the direct path and is adopted unless it is public and a private one is proven, keeps a preferred relay preferred, and keeps key and identity |
| Entries.HelloActs | crates/pulsar-core/src/connection/handlers.rs:599-661 | the Hello handler acts on the entry of its own id and on no other |
| Entries.AckActs | crates/pulsar-core/src/connection/handlers.rs:682-768 | so does HelloAck |
| Entries.IncomingActs | crates/pulsar-core/src/connection/handlers.rs:326-395 | so does Incoming |
| Entries.FoundActs | crates/pulsar-core/src/connection/handlers.rs:131-195 | so does PeerFound |
| KeyAgreement.HelloCreates | crates/pulsar-core/src/connection/handlers.rs:635-661 | a responder state from a genuine Hello is keyed against the initiator, and its ack carries the matching values |
| KeyAgreement.IncomingCreates | crates/pulsar-core/src/connection/handlers.rs:326-395 | the same through the relay, by the blob round trip |
| KeyAgreement.Reanswered | crates/pulsar-core/src/connection/handlers.rs:627-635 | a repeated first message is answered with the values already committed to |
| AgreementSteps.RunKeepsInv | crates/pulsar-core/src/connection/handlers.rs:609-741 | in every run over a network that loses, duplicates and reorders, every datagram and every state stems from the recorded start and responder records |
| Agreement.SessionsAgree | crates/pulsar-core/src/connection/handlers.rs:609-741 | whenever both nodes hold an id and its responder has not dropped a state for it: same key, binding and forward-secrecy flag, opposite roles, each against the other's identity |
| Agreement.SessionsAgreeIff | crates/pulsar-core/src/connection/session.rs:22-35 | in every run, drops included: barring a collision of their two key inputs, two ends that hold an id agree exactly when the record the initiator paired with and the one the responder holds showed the same |
| Agreement.DropBreaksAgreement | crates/pulsar-core/src/connection/session.rs:22-35 | a run in which the responder drops its state and a duplicated Hello makes a new one: both hold the id under different keys and different bindings, unless the hash inputs in question collide |
| Agreement.KeyInputsSeparate | crates/pulsar-core/src/crypto.rs:232-285 | equal key-derivation messages mean equal session id, version, static keys, shared secret, salts and ephemeral keys, whichever sessions they come from |
| Pinning.OwnDatagram | crates/pulsar-core/src/connection/handlers.rs:131-195 | whatever arrives under a pinned id, an Incoming included, leaves the call unanswered with salt and pin in place or answered by the pinned key, and a state for the pin stays |
| Pinning.RunKeepsInv | crates/pulsar-core/src/connection/node.rs:433-508 | every interleaving with datagrams of any content under any id, path changes, other calls, and drops of visitors' handles before the answer keeps that |
| Pinning.KeptIffNotLost | crates/pulsar-core/src/connection/session.rs:22-35 | one step of any kind takes an answered call's state for the pinned key away exactly when it drops, after the answer, a handle that a visitor under the id put into the accept queue |
| Pinning.StaysKeptIff | crates/pulsar-core/src/connection/handlers.rs:410-416 | over every run: an answered call holds a state for the pinned key throughout if and only if no such drop happens |
| Pinning.PinHolds | crates/pulsar-core/src/connection/node.rs:433-694 | when a pinned connect has returned Ok and no such drop happened (in particular when no visitor came under its id), the state under its id exists and was derived against exactly the pinned key, with the call's own values; for a direct call an Incoming under its id may instead have made a responder state for that same key |
| Pinning.LostPin | crates/pulsar-core/src/connection/node.rs:533-558 | the condition is needed: Incoming for another key, PeerFound with the pinned key, the visitor's handle dropped, Incoming again, and connect_pinned returns Ok on a state for the other key |
| Pinning.DirectConnects | crates/pulsar-core/src/connection/node.rs:577-690 | from any node state without the id: the pinned peer's HelloAck wakes connect_direct, which returns Ok on the state made from it |
| Pinning.RelayedConnects | crates/pulsar-core/src/connection/node.rs:421-558 | the pinned peer's PeerFound does the same for connect_pinned |
| Pinning.GivingUpReports | crates/pulsar-core/src/connection/node.rs:475-508 | in every run, dropped handles included, a timeout reports a changed identity exactly when the pin turned a datagram away while unanswered (a PeerFound by its key, a HelloAck by its key or by the key of the state a visitor left); without a visitor that is an answer with another key; no entry is left |
| Pinning.FalseAlarm | crates/pulsar-core/src/connection/handlers.rs:742-764 | a run that reports a changed identity although every answer carried the pinned key: an Incoming for another key, then the peer's HelloAck |
| Paths.PreferRelayMeans | crates/pulsar-core/src/connection/path.rs:61-74 | the relay is preferred exactly when some relay answer is clearly faster (20 ms and 0.7) than every direct answer |
| Paths.PathProbe.Record | crates/pulsar-core/src/connection/path.rs:45-54 | an outstanding number under the relay range adds answer time minus send time to the direct list, one in it to the relay list, and the other list stays; the number is no longer outstanding and no other changes; outstanding and recorded probes are conserved |
| Paths.RecordedOnce | crates/pulsar-core/src/connection/path.rs:45-54 | a repeated answer changes nothing; each answered probe moves to exactly one list (which one, and with what number, is KeptIsTrips) |
| Paths.KeptIsTrips | crates/pulsar-core/src/connection/path.rs:45-54 | after any sends and answers the direct list is exactly the round trips (answer minus send time) of the answered direct numbers and the relay list those of the relayed ones, each once, in order of answer |
| Paths.ListsAreTrips | crates/pulsar-core/src/connection/path.rs:80-133 | in every run of the path machine, while a comparison is in progress, the two lists are the round trips of the probes it sent since it began |
| Paths.SessionPath.OnPunchAck | crates/pulsar-core/src/connection/handlers.rs:492-532 | keeps the path invariant; a proven path stays proven and a private one private; the address stays one of the two candidates |
| Paths.SessionPath.BeginPick | crates/pulsar-core/src/connection/path.rs:80-101 | keeps the path invariant; a comparison starts only on a proven path not compared before, so at most one ever does |
| Paths.SessionPath.EndPick | crates/pulsar-core/src/connection/path.rs:135-156 | keeps the path invariant; the session ends on the relay exactly when some relay answer clearly beat every direct one |
| Paths.SessionPath.WireUp | crates/pulsar-core/src/connection/node.rs:533-558 | keeps the path invariant; the transport handed to the caller is what live_transport reports and send_payload uses, and is Direct exactly for a proven path without a preferred relay |
| Paths.SessionsStartInitial | crates/pulsar-core/src/connection/handlers.rs:172-191 | both rendezvous states and direct-IP states start as the path invariants need |
| Paths.RunKeepsInv | crates/pulsar-core/src/connection/path.rs:80-156 | punches, acks, the comparison and the connect call keep the path invariant in every interleaving |
| Paths.PathSafety | crates/pulsar-core/src/connection/session.rs:87-102 | in every state: the address is the rendezvous address or the LAN candidate, a preferred relay is used, a proven direct path without preference is used, live_transport is what send_payload uses, a relay-only rendezvous session stays on the relay, at most one comparison |
| Paths.ComparisonOutcome | crates/pulsar-core/src/connection/path.rs:135-156 | a comparison ends on the relay exactly when some round trip through the relay, taken from the run's own sends and answers, clearly beat every direct one |
| Paths.ProvenForGood | crates/pulsar-core/src/connection/handlers.rs:446-532 | between any two moments, a proven direct path stays proven and a proven private path is never replaced by a public one |
| Ladder.Build | crates/pulsar-core/src/adapt/ladder.rs:68-118 | exactly the rungs of the codec and native geometry, sorted by non-increasing minimum then load, non-empty, no consecutive repeats |
| Ladder.PickIsBestFit | crates/pulsar-core/src/adapt/ladder.rs:127-133 | the pick fits and every rung above does not; the lowest rung when nothing fits |
| Ladder.PickMonotone | crates/pulsar-core/src/adapt/ladder.rs:127-133 | a larger budget never picks a lower rung |
| Ladder.RungAtReference | crates/pulsar-core/src/adapt/ladder.rs:24-43 | the minimum of each reference rung for each codec, as numbers |
| Ladder.RungGrows | crates/pulsar-core/src/adapt/ladder.rs:45-58 | off the reference table a rung that is no narrower, lower or slower has no smaller minimum; across the step at 50 fps only if the rates differ by 85 to 64 |
| Ladder.MinimumDropsAtFifty | crates/pulsar-core/src/adapt/ladder.rs:45-58 | that condition is needed: 1080p at 50 fps asks for less than at 49 |
| Ladder.Even16Rounds | crates/pulsar-core/src/adapt/ladder.rs:60-63 | a scaled width is a multiple of 16, at least 160, and within 8 of the exact one |
| RateController.Controller.constructor | crates/pulsar-core/src/adapt/controller.rs:255-301 | a controller in its initial state over exactly the rungs of its geometry, satisfying all bounds |
| RateController.Controller.StepDownHostBound | crates/pulsar-core/src/adapt/controller.rs:702-730 | the search loop finds the first lighter rung, or refuses |
| RateController.Controller.UpdateRtt | crates/pulsar-core/src/adapt/controller.rs:642-680 | the sample loop computes baseline, mean and re-baseline |
| RateController.Controller.Tick | crates/pulsar-core/src/adapt/controller.rs:415-635 | every window keeps the bounds on encoder, target, ceiling, probe wait, noise floor, position and retry wait, and leaves encoder plus parity within the target or the encoder on the floor; what bad and clean windows do to the rate is in the WindowOutcomes rows |
| RateController.Controller.PollFast | crates/pulsar-core/src/adapt/controller.rs:397-411 | keeps all bounds, never raises the target, and changes nothing unless it cuts |
| WindowOutcomes.FeedMeans | crates/pulsar-core/src/adapt/controller.rs:642-684 | after a window's RTT samples: their sum and number, the last as last, and a baseline that is the least of the tracked one and every positive sample |
| WindowOutcomes.ExcessMeans | crates/pulsar-core/src/adapt/controller.rs:642-684 | the excess is the window's mean (one sample: blended with the last value) over that baseline, moved two hundredths toward it when it is higher |
| WindowOutcomes.BloatCuts | crates/pulsar-core/src/adapt/controller.rs:499-506 | a window whose mean and last RTT lie that far over the baseline ends at half the target (90 ms) or seven tenths (35 ms), with the old rate's 85 percent as ceiling, or is a host-bound step |
| WindowOutcomes.OveruseCuts | crates/pulsar-core/src/adapt/controller.rs:491-498 | a window in delay overuse ends at 85 percent of the target, or is a host-bound step |
| WindowOutcomes.PollCuts | crates/pulsar-core/src/adapt/controller.rs:397-411 | half a second of overuse cuts to 85 percent between windows, at most once in 1.5 s; anything else changes nothing |
| WindowOutcomes.SevereLossHalves | crates/pulsar-core/src/adapt/controller.rs:511-518 | over 15 percent loss on more than 100 packets halves the target and makes 85 percent of it the ceiling |
| WindowOutcomes.SustainedLossCuts | crates/pulsar-core/src/adapt/controller.rs:519-538 | a second window of loss 3 points over the noise floor cuts to seven tenths when a queue is seen with it, else opens a probe-down at four fifths |
| WindowOutcomes.ProbeJudged | crates/pulsar-core/src/adapt/controller.rs:456-478 | a pending probe-down waits, restores the old rate, or stays and punishes it as ceiling, and when each |
| WindowOutcomes.RisesAreEarned | crates/pulsar-core/src/adapt/controller.rs:540-596 | outside a probe-down the target rises only in a clean window, after the run of clean windows that the position asks for, by the factor that goes with it and never over the ceiling or, in a probe, the cap |
| RateController.Controller.SetManualPoint | crates/pulsar-core/src/adapt/controller.rs:382-388 | keeps all bounds; going back to automatic lands on a rung that fits 0.85 of the target or on the lowest; pinning keeps the point |
| RateSafety.EncoderFits | crates/pulsar-core/src/adapt/controller.rs:637-640 | the encoder's share lies between floor and target, leaves room for parity unless it is the floor, and is the largest that does: one kbit/s more would not fit |
| RateSafety.RatesStayInBounds | crates/pulsar-core/src/adapt/controller.rs:397-640 | every run: floor <= encoder <= target <= cap, floor <= ceiling <= cap, 30 <= probe wait <= 480; the percentages fit 32 bits for caps up to 50,000,000 |
| RateSafety.WireRateFits | crates/pulsar-core/src/adapt/controller.rs:619-640 | after each window encoder times (1 + overhead) is at most the target, unless the encoder is at the floor |
| NoSawtooth.CeilingRisesSlowly | crates/pulsar-core/src/adapt/controller.rs:541-597 | without set_target and with no fast cut during a probe-down: target <= ceiling, each rise of the ceiling is at most a tenth, in a window, and at least 30 windows after the one before |
| NoSawtooth.QueueCutStill | crates/pulsar-core/src/adapt/controller.rs:686-698 | a queue cut never raises the ceiling and leaves the target at or under it |
| NoSawtooth.OverIffPasses | crates/pulsar-core/src/adapt/controller.rs:457-478 | one event of any kind takes the target over the ceiling exactly when it restores a rate over it, lowers the ceiling under the target, or sets a target over it |
| NoSawtooth.StaysUnderIff | crates/pulsar-core/src/adapt/controller.rs:415-640 | over every run, set_target and fast cuts included: the target stays at or under the ceiling if and only if no event of the run is of that kind |
| NoSawtooth.FastCutDuringProbe | crates/pulsar-core/src/adapt/controller.rs:397-411 | a fast cut in the middle of a probe-down makes the judging window pass the ceiling exactly when it is the first cut of its run, not host-bound, and the judgement restores the old rate |
| NoSawtooth.OverCeilingRun | crates/pulsar-core/src/adapt/controller.rs:457-478 | a run of six events from a new controller that ends with the target over the ceiling |
| PointSafety.HostStepLightens | crates/pulsar-core/src/adapt/controller.rs:702-730 | a host-bound step takes the first later rung with strictly less load and no higher frame rate, and leaves the rate alone |
| PointSafety.LadderMoveFits | crates/pulsar-core/src/adapt/controller.rs:763-800 | a rate-driven move lands on a rung whose minimum fits 0.85 of the target, or on the lowest |
| PointSafety.LadderMoves | crates/pulsar-core/src/adapt/controller.rs:763-800 | exactly when an automatic ladder moves down (too little rate and debounce passed, severe or urgent) and up (budget with headroom, clean windows, debounce), and that an upward move takes the rung wanted |
| PointSafety.RelaxesWhenDue | crates/pulsar-core/src/adapt/controller.rs:553-560 | the host-bound cap is relaxed by one rung in the clean window that completes the retry wait |
| PointSafety.HostBoundStepsAreBounded | crates/pulsar-core/src/adapt/controller.rs:554-560 | every run: cap <= position < ladder length; the cap relaxes one rung at a time, at least 150 clean windows apart; host-bound steps <= length - 1 + relaxations |
| Convergence.JudgeLowers | crates/pulsar-core/src/adapt/controller.rs:457-478 | a pending probe-down is over within two windows, whatever it restores |
| Convergence.CleanTick | crates/pulsar-core/src/adapt/controller.rs:541-597 | a clean window keeps a target at the cap there, and otherwise strictly lowers an explicit measure |
| Convergence.TargetReachesCap | crates/pulsar-core/src/adapt/controller.rs:541-597 | from every reachable state, any quiet run with enough clean windows (481 for each step of a tenth from floor to cap, and one more, twice) ends with the target at exactly the cap |
| Convergence.TickBoundLogarithmic | crates/pulsar-core/src/adapt/controller.rs:541-597 | that number is logarithmic in the cap: at most 2 * 481 * (8 m + 2) for a cap of 2^m times the floor |
| Trendlines.FitSlope | crates/pulsar-core/src/adapt/delay.rs:210-220 | the two accumulation loops give the slope of the line with the least sum of squared distances of all lines, and none exactly when all samples share one time |
| Trendlines.FitIsLeastSquares | crates/pulsar-core/src/adapt/delay.rs:210-220 | no line has a smaller residual than the one through the means with the fitted slope |
| Trendlines.Trendline.Frame | crates/pulsar-core/src/adapt/delay.rs:113-146 | keeps the threshold and the window bounded and a start time exactly while Overuse holds; the frame becomes the reference for the next one; a sample is taken only with a counted delta; which hypothesis follows is in the TrendDirection and RampVerdict rows |
| Trendlines.OffsetsDoNotMatter | crates/pulsar-core/src/adapt/delay.rs:113-206 | adding any constant modulo 2^32 to all RTP timestamps and any constant to all arrivals changes neither the hypothesis nor how long it has held |
| Trendlines.SteadyStaysNormal | crates/pulsar-core/src/adapt/delay.rs:113-206 | equal send and arrival gaps keep the hypothesis Normal forever |
| TrendSlope.SlopeBound | crates/pulsar-core/src/adapt/delay.rs:210-221 | samples whose steps are at least (at most) c per unit of time have a fitted slope of at least (at most) c |
| TrendSlope.SlopeFollows | crates/pulsar-core/src/adapt/delay.rs:131-145 | on a ramp the fitted slope closes a tenth of its distance to the true one with each frame |
| TrendDirection.NeverTheWrongWay | crates/pulsar-core/src/adapt/delay.rs:113-189 | over any frames: while no usable arrival gap exceeds its send gap Overuse is never reported, and while none is shorter Underuse never is |
| RampVerdict.RampIsJudged | crates/pulsar-core/src/adapt/delay.rs:113-208 | constant send gap g and arrival gap h over enough frames (the number is given): Normal exactly when 240 times their difference is at most 6 h, else Overuse when h > g and Underuse when h < g |
| RampVerdict.FastStaysNormal | crates/pulsar-core/src/adapt/delay.rs:191-208 | the condition on very short gaps is needed: one tick apart, a growing delay over that level is never reported |
| RampVerdict.AllAtOnceStaysNormal | crates/pulsar-core/src/adapt/delay.rs:210-221 | frames that all arrive at the same time have no slope and stay Normal |
| Trendlines.RunKeepsOk | crates/pulsar-core/src/adapt/delay.rs:148-206 | after any frames: bounded threshold and window, and a start time exactly while Overuse holds |

## Left out

- Pinning.PinHolds: does not hold when a Session handle that a visitor's Incoming under the pinned id emitted is dropped after the answer, because the drop removes the state by id; StaysKeptIff gives the exact condition and LostPin the run.
- GF(2^16): the second field instance; the codec is proved for every lawful field.
- The other shard container `(T, bool)` and `ShardByShard::encode_sep`: same arithmetic as the forms modelled.
- Codec.ReedSolomon.EncodeSep: data and parity buffers must not alias, which the borrow checker guarantees in the original.
- The lock around the decode-matrix cache and its concurrent use; each call is one step.
- The AVX, SSE, NEON and AltiVec variants of the vector code; the generic two-lane form is modelled, with little-endian lanes.
- Slices.MulSlice: requires a nonempty slice, because the original indexes the first byte.
- Tables.Divide: a zero divisor with a nonzero dividend panics in the original and is excluded here.
- Matrices.Matrix.Invert: a non-square matrix panics in the original and is excluded here.
- SHA-256, X25519 and ChaCha20-Poly1305: ideal or symbolic functions; that two given hash inputs do not collide is assumed only by DropBreaksAgreement, SessionsAgreeIff and BindingsSeparate.
- Sequence numbers at or above 2^64: the sender's counter stops there in the model.
- Sockets, timers, tokio tasks, wire encoding, relay registration, heartbeat and authentication, rate caps announced by the relay.
- Agreement.SessionsAgree: the relay is honest and the session id fresh; a hostile relay under a pinned id is the subject of Pinning.
- A connect call whose own socket send fails returns before cleaning up; the model has no such step, and no claim about leftover entries there.
- Paths: punch bursts and the pacing of probes are not modelled; send and answer times are those of the steps.
- RampVerdict.RampIsJudged: says nothing of ramps with 6 h < 240 |h - g| <= 12.5 h whose frames arrive less than 100/39 ms apart (over 390 a second); FastStaysNormal shows that a growing delay there can go unreported, and which ones do depends on the threshold's whole history.
- Ladder.Even16Rounds: widths beyond 2^32, where the original's 32-bit product would overflow.
- Ladder.RungGrows: one way only; rates on the two sides of the 50 fps step that differ by less can compare either way once rounded.
- Controller: the recovery-mode flip, the last-good rate, the log signals and the decision record returned to the caller.
- RateController.Controller.constructor: the fields live in one record that the methods update, instead of in separate class fields; counters are unbounded.
- RateSafety.RatesStayInBounds: unbounded integers, so the 32-bit products are shown to fit for caps up to 50,000,000 kbit/s instead of wrapping.
- Ladder.Build: rungs are inserted in order as they are pushed, which gives the same list as pushing all and sorting stably.
- Float rounding in the controller, the ladder and the estimator.
- Identity files, PAKE, service, media, FEC sizing, discovery, capture, input and codec command lines.
