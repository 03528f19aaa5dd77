# Contention Governor, verified model

Contention Governor takes evidence that one workload harms another, decides which intervention is
legal and preferable, hands it to an adapter, and judges it by what is measured afterwards. This
project models its core in Dafny and proves what it keeps.

* **Wire protocol** (`BitXor`, `Crc32c`, `CrcCheck`, `Checksum`, `Frames`, `Connection`, `Sender`). Words are bounded
  integers and exclusive-or is defined on their bits. The table-driven checksum is proved equal to
  the bit-at-a-time CRC-32C. The frame decoder is the exact inverse of the encoder. The receiver is
  proved against arbitrary chunks and failures, the sender against arbitrary interleavings, partial
  writes and failures.
* **Persistence** (`Enums`, `Entities`, `Formats`, `StateFormat`, `Layout`, `Doubles`, `Image`, `Saving`, `Loading`,
  `Meaning`).
  A grammar of the image is given as functions with round-trip laws; the writer and the reader, with
  its cursor and failure flag, are classes proved against it. Doubles are 64-bit patterns, read as
  IEEE 754 numbers where the policy is validated and where the stored state meets the decisions.
* **Decision** (`Rules`, `Ranking`, `Evaluate`, `Evaluator`, `Effects`, `Replay`). Doubles are real numbers. The
  functions say what a decision is; the methods compute it with the program's loops, pushes and sort.
* **Governor** (`Steps`, `Integrity`, `Tables`, `Governor`). Each section run under the lock is a function on
  the state in `Steps`; class `Governor` has the program's tables and counters as fields and its methods
  change them in place. Every method's contract gives the whole new state.
* **Sections** (`Measures`, `Permissions`, `Authorizing`, `Lifecycles`, `Outcomes`). What each section does, said
  of the stored fields and the measured numbers alone: when it acts, exactly, and all that it changes.
* **Runs** (`Machine`, `Dispatching`, `Quarantine`, `ClosedLoop`, `Resolution`, `Fairness`, `Budgets`,
  `Agreement`, `Divergence`, `EvidenceLog`, `Witnesses`, `RateWitness`). A run is any sequence of those
  sections. The two sections of a dispatch are separate steps, any number of adapter calls may be out,
  and an adapter may answer anything at any later time; what has no adapter, every class but the
  throttling ones, can only end unavailable. A log keeps grants, calls, restarts, evidence and
  verdicts. The theorems hold for every run.

Times, ids and lengths are unsigned 64-bit words and wrap where the program's do. Theorems over runs
ask that the id counters have room for the run (fewer than 2 to the 64 steps); those on budget,
fairness and cooldown ask for one policy throughout, and where time matters a clock that does not go
back. The clock, `recv`, `send` and the adapters are parameters. A status is its code, with its text
only where a record stores it.

Where the code differs from the program's README, the model follows the code and says exactly when:

* Its lines 192-193 say terminal states remain terminal. A reported failure overwrites any of them, and
  an answer to a call still out does too: `Dispatching.SettledStateChangesIff` gives the exact
  condition, `Witnesses.FailureIsOverwritten` and `Witnesses.EffectIsOverwritten` the runs.
* Its lines 243-245 say the same history reconstructs the selected action. Replay evaluates against the
  state as it is now: a target that came to the cap, evidence that is no longer current, as after every
  restart, a degradation measured below the threshold, as after a success, and another policy or authority
  can each make it report a divergence. `Divergence.DivergesIff` gives the exact condition in a state,
  `Divergence.ReplayInRuns` in a run, `Divergence.VerdictAfter` and `Agreement.GrantVerdict` what a step
  does to it, `Witnesses.DivergesAtTheCap`, `Witnesses.DivergesAfterRestart` and
  `Witnesses.DivergesWhenResolved` the runs.
* Its lines 177-186 list conflict, evidence and intervention generations in the fence and promise that
  evidence and feasibility are looked at again before dispatch. Those three are stored and not
  compared, and dispatch checks the fence only: `Rules.RevalidateIff`, `Dispatching.CallIff`, with runs in
  `Witnesses.DispatchedOnStaleEvidence` and `Witnesses.DispatchedAtTheCap`.
* Its lines 195-199 say an intervention is not called successful merely because it executed. One that did
  not execute can be: `Witnesses.NeverDispatchedIsEffective`. And the decision's own class, unless a
  request names another, is migration wherever that is permitted, which no adapter serves, so that under
  the default policy the loop closes only for a throttling class named: `Resolution.LoopClosesIff`,
  `Resolution.DefaultIsMigration`.
* Its lines 210-211 make the threshold decide when a conflict is actionable. The policy's validation does
  not exclude a threshold that is no number, under which every degradation is actionable:
  `Meaning.NaNThresholdAccepted`.
* Its lines 212-215 promise a cap on total actions per window. The total is counted and never compared:
  `Budgets.TotalKeptIff`, `Witnesses.TotalPassesLimit`. The other counters are compared before they are
  rolled, so an exhausted family waits for another's grant: `Budgets.ReliefIff`,
  `Witnesses.RefusedUntilOthersAct`.
* Its lines 220-223 call the protocol safe under partial reads and writes. A payload in the last 4095
  bytes of the permitted range can be refused for the buffer's size: `Connection.AllDeliveredIff`. A
  write that fails part-way leaves a torn frame before the next: `Sender.WholeFramesIff`.
* The reader accepts one attribution strength and one status code beyond those with a name; they are
  `Attribution6` and `Status20` in `Enums`.

## Model

| member | source | states |
|---|---|---|
| `Crc32c.TableDrivenIsBitwise` | src/digest.cpp:12-29 | for every register and message the table-driven update equals the reflected CRC-32C of section 12.1 of RFC 3720 taken one bit at a time |
| `Crc32c.UpdateComposes` | src/digest.cpp:22-29 | updating with two pieces in turn equals one update with their concatenation |
| `Crc32c.StepInjective` | src/digest.cpp:15 | one bit step of the register loses nothing: equal results come from equal registers |
| `Crc32c.ReferenceInjective` | src/digest.cpp:22-29 | feeding the same bits to two registers keeps them apart, so damage in front of a common tail is never forgotten |
| `Crc32c.BurstDetected` | src/digest.cpp:10-29 | two messages that differ only inside a window of at most 32 consecutive bits, wherever it begins, have different registers |
| `Crc32c.FourByteDamageDetected` | src/digest.cpp:10-35 | equal-length messages that differ only within four consecutive bytes have different checksums |
| `Crc32c.ChecksumIffResidue` | src/digest.cpp:31-35 | a stored word is the message's checksum if and only if running over message and word ends at one fixed register value |
| `Crc32c.CodewordBurstDetected` | src/digest.cpp:31-35 | damage to at most 32 consecutive bits of a message together with its stored checksum, even across their boundary, always leaves them not matching |
| `CrcCheck.CheckValue` | src/digest.cpp:10-35 | the checksum of the nine characters 123456789 is 0xE3069283, the check value published for CRC-32C |
| `Checksum.FillTable` | src/digest.cpp:11-19 | the nested loops leave in every slot the byte's eight bit steps |
| `Checksum.Crc32.Add` | src/digest.cpp:22-29 | the in-place loop leaves the register the update function gives for the old register and the data |
| `Checksum.ComputeCrc` | src/digest.cpp:31-35 | the one-shot loop computes the checksum the theorems above are about |
| `Frames.EncodeFrame` | src/net.cpp:81-96 | the pushes build the frame's encoding: magic, version, type, length, payload and the checksum of everything from the type on |
| `Frames.ParseHeader` | src/net.cpp:137-149 | the three header words are read little-endian, and only the magic is tested |
| `Frames.ScanBytes` | src/net.cpp:271-289 | the tests run in the program's order and give the same verdict as the frame grammar |
| `Frames.DecodeFrames` | src/net.cpp:268-297 | the loop with its advancing position returns the same frames and the same error as decoding by the grammar, and it terminates |
| `Frames.ScanIff` | src/net.cpp:137-149 | a frame is taken off the front of a buffer if and only if its encoding, with a payload within the limit, stands there |
| `Frames.ScanOfPrefix` | src/net.cpp:268-282 | a proper prefix of an encoded frame asks for more bytes and is never rejected |
| `Frames.ScanShortIff` | src/net.cpp:268-282 | with a whole header in the buffer, a scan asks for more if and only if some frame that fits has a longer encoding that begins, up to its checksum, as the buffer does |
| `Frames.ScanErrors` | src/net.cpp:271-289 | which error a whole header and what follows it give, byte by byte: magic, version, a length above 1048576, a checksum, or more to come |
| `Frames.DecodeIff` | src/net.cpp:268-297 | decoding succeeds with a list of frames if and only if the buffer is the concatenation of their encodings and all payloads fit: round trip both ways |
| `Frames.DecodePrefix` | src/net.cpp:268-297 | also on failure the frames returned re-encode to a prefix of the buffer, and what follows it cannot be scanned |
| `Frames.DamagedFrameRejected` | src/net.cpp:283-289 | damage to at most 32 consecutive bits of type, payload and stored checksum is reported as a checksum mismatch, never decoded |
| `Connection.Connection.Receive` | src/net.cpp:152-207 | the buffering loop does exactly one receive of the stream function; the buffer is always the bytes read minus the bytes of the frames returned |
| `Connection.Connection.ReadSome` | src/net.cpp:153-164 | one recv appends the next chunk, reports the close, or fails; a failure may be for this once, and then later calls go on with what follows |
| `Connection.ReceiveConserves` | src/net.cpp:166-206 | bytes buffered and to come are conserved but for the encoding of a delivered frame, also across a non-blocking call that gives up |
| `Connection.StreamConserves` | src/net.cpp:166-206 | the same over any series of blocking and non-blocking calls |
| `Connection.ReadsOnlyWhileShort` | src/net.cpp:166-206 | a call reads another chunk only while what it has asks for more, and a refusal comes from the first buffer that does not |
| `Connection.OversizedRefusedAtOnce` | src/net.cpp:173-174 | a header that declares too much is refused in the chunk that completes it, and no further chunk is read |
| `Connection.FailsBecause` | src/net.cpp:191-206 | what each other failure means: closed with nothing or with something buffered, too much buffered, or a single read that was not enough |
| `Connection.StreamRefinesDecode` | src/net.cpp:152-207 | whatever arrives, in whatever chunks, the frames handed out are the first of those that decoding the whole stream at once gives |
| `Connection.StreamDeliversAll` | src/net.cpp:152-207 | for frames with room, so for all with payloads of at most the maximum minus 4095, every split into chunks of 1 to 4096 bytes delivers exactly those frames in order and leaves nothing behind |
| `Connection.AllDeliveredIff` | src/net.cpp:200-202 | a list of frames survives every such split if and only if for each frame its payload plus the bytes behind it, counted up to 4095, is within the maximum |
| `Connection.SafeHaveRoom` | src/net.cpp:200-202 | payloads of at most the maximum minus 4095 meet that bound whatever is behind them |
| `Connection.AlwaysDeliveredIff` | src/net.cpp:200-202 | with anything behind it, a frame survives every cut if and only if its payload is at most the maximum minus 4095 |
| `Connection.LastChunkOverflows` | src/net.cpp:200-202 | the failing case: a frame read byte by byte up to its last byte and then a chunk too long for the room left raises the oversized-buffer error |
| `Sender.WriteAll` | src/net.cpp:99-108 | success means all of the data reached the wire in order; failure means a proper prefix did |
| `Sender.Send` | src/net.cpp:124-134 | a frame is refused for size, with nothing written, if and only if it does not fit; a sent frame adds its whole encoding to the wire |
| `Sender.AccountedInEveryRun` | src/net.cpp:124-134 | in every interleaving of locked senders, partial writes and failing writes the wire is accounted for byte by byte: completed frames, torn bytes, and the lock holder's unfinished prefix |
| `Sender.WholeFramesIff` | src/net.cpp:99-134 | with no write going on the wire decodes without error to exactly the completed frames if and only if no failed write left a byte on it |
| `Sender.SendersKeepOrder` | src/net.cpp:124-134 | each sender's tries are, in order, the first of the frames it asked to send, oversized ones refused |
| `Sender.BeforeTheTear` | src/net.cpp:124-134 | what was completed before the first torn byte is decoded first, whatever happens afterwards |
| `Sender.TornSomewhere` | src/net.cpp:104-132 | frames do tear: one sender fails after a byte, the next writes behind it, and the wire does not decode to the frame it completed |
| `Sender.FramesNeverTear` | src/net.cpp:124-134 | as long as no failed write has left a byte, decoding the wire gives exactly the completed frames, also in the midst of a write |
| `Saving.SaveToBytes` | src/persistence.cpp:241-265 | the writer's pushes, over all nested tables in key order, build the image of the state |
| `Saving.SerializeState` | src/persistence.cpp:241-257 | the writer appends the state's grammar form to whatever stands before it |
| `Saving.SerializePolicy` | src/persistence.cpp:109-135 | the writer appends the policy's grammar form, workloads in key order |
| `Saving.SerializeConflict` | src/persistence.cpp:212-232 | the writer appends the conflict's grammar form |
| `Saving.SerializeIntervention` | src/persistence.cpp:196-210 | the writer appends the intervention's grammar form |
| `Layout.ImageStands` | src/persistence.cpp:258-265 | a saved image begins with its eight named bytes, version and length; the policy's two thresholds are the words at bytes 36 and 44; the checksum ends it |
| `Layout.PolicyFirst` | src/persistence.cpp:241-257 | policy, authority, conflicts, evidence, interventions, fairness and counters follow one another in this order |
| `Layout.PolicyStands` | src/persistence.cpp:109-118 | where each field of the fixed part of a policy stands |
| `Layout.LimitsStand` | src/persistence.cpp:118-135 | where each limit, each use and the table of workloads stand, and that the switches come after it |
| `Layout.WorkloadStands` | src/persistence.cpp:137-142 | where the first fields of a workload's policy stand |
| `Layout.CostsStand` | src/persistence.cpp:142-150 | where, after an optional target, its costs and switches stand |
| `Layout.AuthorityStands` | src/persistence.cpp:152-162 | where the nine generations stand, before the two tables |
| `Layout.ObservationStands` | src/persistence.cpp:164-173 | where each observed field of evidence stands, behind its list of neighbours |
| `Layout.ProvenanceStands` | src/persistence.cpp:173-178 | where the status, times and label of evidence stand, behind its confounders |
| `Layout.SourceStands` | src/persistence.cpp:178-184 | where the source of evidence and its nine last words stand |
| `Layout.ActionStands` | src/persistence.cpp:186-201 | where each field of an intervention's order and fence stands |
| `Layout.ProgressStands` | src/persistence.cpp:202-205 | where its six times and ids and the adapter's note stand |
| `Layout.ReportStands` | src/persistence.cpp:206-207 | where its interim status stands |
| `Layout.ResultStands` | src/persistence.cpp:208-210 | where its result, trace and the reported flag stand |
| `Layout.ContentionStands` | src/persistence.cpp:212-216 | where the two lists of workloads of a conflict stand |
| `Layout.ExtentStands` | src/persistence.cpp:216-219 | where its domain, measures, objective and severity stand |
| `Layout.FindingsStand` | src/persistence.cpp:219-225 | where its evidence, state and times stand, and the lists behind them |
| `Layout.DecisionsStand` | src/persistence.cpp:225-232 | where its selections, generations and flags stand |
| `Layout.FairnessStands` | src/persistence.cpp:234-239 | where each field of a fairness record stands |
| `Layout.CountersStand` | src/persistence.cpp:254-257 | where the seven counters stand |
| `Layout.ResourceDomainNumbers` | include/contention/enums.hpp:17-32 | the byte each domain is stored as is its place in the program's list |
| `Layout.MetricDirectionNumbers` | include/contention/evidence.hpp:24-27 | the byte each metric direction is stored as is its place in the program's list |
| `Layout.ConflictStateNumbers` | include/contention/enums.hpp:37-51 | the byte each conflict state is stored as is its place in the program's list |
| `Layout.EvidenceStatusNumbers` | include/contention/enums.hpp:57-66 | the byte each evidence status is stored as is its place in the program's list |
| `Layout.AttributionStrengthNumbers` | include/contention/enums.hpp:71-78 | the byte each attribution strength is stored as is its place in the program's list |
| `Layout.BindingObjectiveNumbers` | include/contention/enums.hpp:83-96 | the byte each objective is stored as is its place in the program's list |
| `Layout.InterventionClassNumbers` | include/contention/enums.hpp:101-123 | the byte each intervention class is stored as is its place in the program's list |
| `Layout.LifecycleStateNumbers` | include/contention/enums.hpp:128-141 | the byte each lifecycle state is stored as is its place in the program's list |
| `Layout.VerificationOutcomeNumbers` | include/contention/enums.hpp:146-156 | the byte each verification outcome is stored as is its place in the program's list |
| `Layout.EvidenceLabelNumbers` | include/contention/enums.hpp:162-169 | the byte each evidence label is stored as is its place in the program's list |
| `Layout.SeverityNumbers` | include/contention/enums.hpp:174-181 | the byte each severity is stored as is its place in the program's list |
| `Layout.StatusCodeNumbers` | include/contention/status.hpp:15-36 | the byte each status code is stored as is its place in the program's list |
| `Layout.LengthsReadBack` | src/persistence.cpp:67-73 | a string, or a list, is read back if and only if it has at most 1048576 bytes, or entries |
| `Loading.LoadFromBytes` | src/persistence.cpp:466-515 | loading is total, reads nothing out of range, agrees with the image's meaning, and replaces the destination only when everything is accepted |
| `Loading.OpenEnvelope` | src/persistence.cpp:466-492 | header, version, wrapping length test and checksum are tested in the program's order |
| `Loading.DeserializeState` | src/persistence.cpp:494-510 | the cursor moves over exactly the bytes the grammar consumes and the counted loops build the same tables |
| `Loading.Reader.U64` | src/persistence.cpp:60-64 | a word is read when eight bytes are left, and otherwise the reader fails for good |
| `Loading.Reader.Str` | src/persistence.cpp:67-73 | a string within the limit and the bytes left is read, and anything else is refused |
| `Image.WrappingLengthTest` | src/persistence.cpp:483-487 | although the sum wraps modulo 2 to the 64, the test passes if and only if the payload length is the buffer length minus 24 |
| `Image.StateRoundTrip` | src/persistence.cpp:241-257 | reading back a written state gives it and the bytes behind it, for every state within the limits |
| `Image.SaveLoadRoundTrip` | src/persistence.cpp:466-515 | loading a saved state succeeds and gives exactly that state, whenever collections and strings are within 2 to the 20 and the policy is valid |
| `Image.SaveLoadIff` | src/persistence.cpp:466-515 | an addressable image loads back to its state if and only if the state is within limits and its policy valid |
| `Image.SaveInjective` | src/persistence.cpp:241-265 | different states have different images |
| `Meaning.ValidityAgrees` | src/persistence.cpp:511-512 | on numbers the tests made on stored bit patterns accept exactly the policies set_policy accepts |
| `Meaning.KnownDoubles` | src/persistence.cpp:27-34 | bit patterns of one, two, three quarters, both zeros, the infinities and not-a-number read as such |
| `Meaning.AcceptedOrNaN` | src/policy.cpp:21-51 | what the tests let in are numbers between 0 and 1 and, but for the confidence, doubles that are no number |
| `Meaning.NaNThresholdAccepted` | src/policy.cpp:21-51 | an accepted policy is accepted with its actionability threshold replaced by any not-a-number, and then no degradation is below it |
| `Meaning.UsableAgrees` | src/evidence.cpp:40-66 | for every bit pattern: evidence passes the finiteness and range tests on its stored doubles if and only if they are numbers and the evidence they denote is usable in the model's governor |
| `Meaning.GatesAgree` | src/governor_engine.cpp:389-455 | on numbers the gates, compared double by double on the stored patterns, refuse a conflict if and only if, and for the same reason as, the model's governor does |
| `Meaning.RestoredDecidesIff` | src/persistence.cpp:466-515 | a governor within limits decides on a conflict if and only if in the state read back from its image the stored doubles let the conflict pass the gates and some associated workload is known and below the cap |
| `Image.AcceptedIsWrapped` | src/persistence.cpp:466-515 | accepted bytes are a header, a payload that loads, and its checksum |
| `Image.LoadNormalises` | src/persistence.cpp:466-515 | any accepted bytes, with odd booleans or unordered or duplicate keys, give a state within limits whose image is no longer and loads to the same state |
| `Image.NoPrefixLoads` | src/persistence.cpp:483-487 | no proper prefix and no proper extension of an accepted image is accepted |
| `Image.TruncationAndExtensionRefused` | src/persistence.cpp:483-487 | every truncation and every extension of a saved image is refused |
| `Image.DamagedImageRefused` | src/persistence.cpp:489-492 | damage to at most 32 consecutive bits of the payload and its stored checksum is refused before anything is decoded |
| `StateFormat.PolicyRoundTrip` | src/persistence.cpp:271-306 | reading a written policy gives it back |
| `StateFormat.EvidenceRoundTrip` | src/persistence.cpp:362-387 | reading written evidence gives it back |
| `StateFormat.InterventionRoundTrip` | src/persistence.cpp:400-419 | reading a written intervention gives it back |
| `StateFormat.ConflictRoundTrip` | src/persistence.cpp:421-453 | reading a written conflict gives it back |
| `Formats.MapRoundTrip` | src/persistence.cpp:498-506 | reading the entries of a table written in key order gives the table back |
| `Formats.MapShrinks` | src/persistence.cpp:498-506 | the table read from any entries, in any order and with repeated keys, is written in no more room |
| `Rules.RevalidateIff` | src/governor_engine.cpp:338-366 | a fence passes if and only if the workload is known and the fence carries the nine global generations, the workload generation and the boot that one made now would carry |
| `Lifecycles.RefusalOfFence` | src/governor_engine.cpp:338-366 | a fence is refused if and only if one of eleven comparisons fails, and for the policy exactly when that is the first |
| `Permissions.FeasibleIff` | src/governor_engine.cpp:215-310 | an action is feasible if and only if its fence is current, the target's streak is below the cap and no switch of the policy or of the workload's own forbids the class, switch by switch, the hard floor included |
| `Evaluator.CheckFeasibility` | src/governor_engine.cpp:215-310 | the flags turned off step by step give: fence current, the class's rule met, and the target below the fairness cap |
| `Evaluator.CheckClass` | src/governor_engine.cpp:229-298 | the class's rule as one condition on policy and workload policy |
| `Ranking.FindClassIndex` | src/governor_engine.cpp:69-75 | the loop finds the class's first position in the fixed order |
| `Ranking.RankingIsStrictTotalOrder` | src/governor_engine.cpp:507-522 | the comparator is irreflexive, asymmetric and transitive, and tells apart any two candidates that differ in class or target |
| `Ranking.BetterIsLex` | src/governor_engine.cpp:507-522 | the comparator is the lexicographic order on eight keys |
| `Ranking.BestIsUnique` | src/governor_engine.cpp:523-524 | exactly one candidate is ranked before every other |
| `Ranking.FrontOfSortIsBest` | src/governor_engine.cpp:523-524 | the front of any arrangement sorted by the comparator is that candidate |
| `Evaluator.StableSort` | src/governor_engine.cpp:523 | a permutation in which none is ranked before one that stands earlier, and those tied keep their order |
| `Evaluator.SortTargets` | src/governor_engine.cpp:442-443 | the associated workloads in ascending order, each as often as before |
| `Evaluator.SiftEvidence` | src/governor_engine.cpp:389-404 | the evidence that can be used in order, and one rejection, with its cause, for each that cannot |
| `Evaluator.WeighEvidence` | src/governor_engine.cpp:415-430 | strong enough exactly if no rejection is added, one for each of attribution, confidence and confounders |
| `Evaluator.BuildCandidates` | src/governor_engine.cpp:485-502 | the nested loops build the candidate of every target and eligible class, and the feasible ones among them |
| `Evaluator.EvaluateConflict` | src/governor_engine.cpp:371-537 | the whole pipeline, gates in order, gives the evaluation the theorems are about, rejections included |
| `Evaluate.DecisionIff` | src/governor_engine.cpp:371-537 | a decision is made if and only if every gate is passed and some pair is feasible, and it is the feasible pair no other is ranked before |
| `Evaluate.DecisionDependsOn` | src/governor_engine.cpp:440-530 | the decision is the same under any order or repetition of the associated workloads, and depends on nothing but evidence, authority, policy without its budget, the conflict's measurements and which targets are at the cap |
| `Evaluate.ChoiceIgnoresOrder` | src/governor_engine.cpp:463-530 | the choice is the same under any order or repetition of targets and of classes |
| `Evaluate.ChosenTargetIsLeast` | src/governor_engine.cpp:512-520 | among the targets on which the chosen class is feasible the chosen one has least value, then least id |
| `Evaluate.DecisionExistsIff` | src/policy.cpp:79-83 | releasing residency is never forbidden, so a conflict that passes the gates has a decision if and only if some associated workload is known to the authority and below the cap |
| `Effects.DecisionIsBestPair` | src/governor_engine.cpp:371-537 | in closed form: past the gates the decision is the first class, in one fixed order of effects, permitted on some known associated workload below the cap, on the one of least value and then id among the workloads it serves |
| `Effects.MigrationFirst` | src/governor_engine.cpp:507-522 | so migration is decided on whenever some associated workload, known and below the cap, may be migrated |
| `Evaluate.NoDecisionNoFeasible` | src/governor.cpp:270-276 | without a decision no candidate is feasible, so the search for another one in authorize finds nothing |
| `Permissions.ProposedIff` | src/governor_engine.cpp:463-502 | past the gates a candidate is built for a class and target if and only if the target is associated and the policy has not switched the class off, and is feasible exactly when nothing forbids it |
| `Permissions.DecidesIff` | src/governor_engine.cpp:371-530 | a conflict has a decision if and only if its degradation is at least the threshold, the first of its evidence that is current and in range is strong enough, and an associated workload is known and below the cap |
| `Permissions.DecisionIsAllowed` | src/governor_engine.cpp:485-530 | the decision is on a pair nothing forbids, and on no such pair would a class earlier in effect, or the same class on a workload of less value, have been possible |
| `Permissions.EvaluationReports` | src/governor_engine.cpp:371-537 | which state and code an evaluation reports, exactly, by what is missing |
| `Permissions.RejectionsIff` | src/governor_engine.cpp:389-451 | each reason an evaluation rejects for is given if and only if it holds: a status listed, figures out of range, nothing usable, below the threshold, no interferer |
| `Permissions.WeaknessesIff` | src/governor_engine.cpp:415-430 | the first evidence that counts is rejected for attribution, confidence or confounders exactly when it falls short in that |
| `Permissions.Promises` | src/governor_engine.cpp:79-205 | what a candidate of each class promises, in percent and milliseconds, relief falling along the order of effects; cost a tenth of the harm, recovery for preemption alone |
| `Governors.Governor.constructor` | include/contention/state.hpp:20-35 | a new governor has empty tables and all counters at one |
| `Governors.Governor.SetPolicy` | src/governor.cpp:73-80 | an invalid policy is refused and changes nothing; a valid one is installed together with its generation in the authority |
| `Lifecycles.PolicyInstalledIff` | src/policy.cpp:21-51 | a policy is installed with its generation if and only if release threshold, actionability threshold, confidence and floors are in order and in range and the limits positive; otherwise nothing changes |
| `Lifecycles.AuthoritySettings` | src/governor.cpp:82-98 | the other settings replace exactly what they name |
| `Governors.Governor.SetAuthority` | src/governor.cpp:82-86 | only the authority changes |
| `Governors.Governor.RecordWorkerBoot` | src/governor.cpp:88-92 | only that workload's boot changes |
| `Governors.Governor.RecordWorkloadGeneration` | src/governor.cpp:94-98 | only that workload's generation changes |
| `Governors.Governor.AdvanceEpoch` | src/governor.cpp:100-125 | the four loops rewrite every entry of their table, in place, as the restart function says, and nothing else |
| `Quarantine.RestartDoubts` | src/governor.cpp:103-119 | a restart makes current evidence, every conflict not resolved, suppressed or superseded, and every intervention on its way doubtful, adding and dropping none |
| `Quarantine.RestartForgives` | src/governor.cpp:100-125 | a restart clears every streak, moves the epoch on unless it is at its maximum, and changes nothing else |
| `Governors.Governor.LocateConflict` | src/governor.cpp:145-152 | the walk stops at the least id among the victim's conflicts in the domain, or there is none |
| `Governors.Governor.IngestEvidence` | src/governor.cpp:127-208 | the new state, whole, is what ingestion of the evidence gives; invalid evidence changes nothing |
| `Measures.EvidenceKeptIff` | src/evidence.cpp:40-58 | evidence is filed if and only if its victim, baseline, sample count, confidence and degradation are in range; then under its id or the counter's, measured, and otherwise as given |
| `Measures.ReachesIff` | src/evidence.cpp:19-38 | a measured degradation is at least a fraction if and only if the observation is worse than the baseline by that fraction of it, in the metric's direction; the improvement likewise |
| `Measures.MeasuredAlways` | src/evidence.cpp:19-38 | in every run all evidence on file carries the fractions its baseline and observation amount to: observation equals baseline times one minus, or plus, the degradation |
| `Measures.FirstEvidenceOpens` | src/governor.cpp:154-205 | the first evidence about a victim in a domain opens a conflict, every field stated: actionable if and only if current and worse than the baseline by the threshold, severe by tenths, quarters and halves of the baseline |
| `Measures.MoreEvidenceUpdates` | src/governor.cpp:187-205 | further evidence raises degradation and confidence to the greatest, renames the neighbours, and makes the conflict actionable if and only if it is current and the threshold is or was reached |
| `Governors.BudgetExhausted` | src/governor.cpp:239-255 | the answer compares the family's counter as it stands, not rolled, with its limit |
| `Governors.ConsumeBudget` | src/governor.cpp:217-237 | a window older than its length is rolled, then the family and the total are charged, in wrapping arithmetic |
| `Governors.Governor.FenceFor` | src/governor.cpp:288-290 | the untested look-up of the conflict's first evidence is always in range |
| `Governors.Governor.TryAuthorize` | src/governor.cpp:261-308 | the tests in order grant exactly what the attempt function grants, and change nothing |
| `Governors.Governor.Authorize` | src/governor.cpp:259-343 | a refusal changes nothing; a grant changes budget, fairness, conflict and record together, whole state stated |
| `Authorizing.GrantedIff` | src/governor.cpp:259-308 | a request is granted if and only if there is a decision and the class asked for, or its own, is not forbidden on its target, its limit field is not used up and the cooldown is over or the class is one of five |
| `Authorizing.GrantHasWaited` | src/governor.cpp:300-308 | every grant of a class outside those five comes at least the cooldown after the target's last intervention, and time never matters to the five |
| `Authorizing.GrantFiles` | src/governor.cpp:310-342 | all that a grant changes, field by field: the new record and its fence, the counter of its class and the total, the target's fairness record, the conflict and the ids |
| `Authorizing.AdapterNames` | src/governor_engine.cpp:82-200 | the adapter a candidate of each class names |
| `Governors.Governor.BeginDispatch` | src/governor.cpp:345-370 | the adapter is to be called if and only if the record is authorized and its fence current; the code returned is the first failed test's |
| `Governors.Governor.EndDispatch` | src/governor.cpp:395-412 | the adapter's answer is written over whatever state the record is in by then |
| `Lifecycles.BeginningMoves` | src/governor.cpp:350-370 | the first section of a dispatch takes an authorized record to dispatched, with id and time, if its fence is up to date, to superseded if not, and leaves any other record |
| `Lifecycles.AnswerMoves` | src/governor.cpp:395-411 | what each answer makes of the record, note and status text included, and nothing else |
| `Lifecycles.LackIsNamed` | src/governor.cpp:380-394 | the three reasons for having no adapter, by class and by what is registered |
| `Lifecycles.ReportsMove` | src/governor.cpp:426-448 | an acknowledgement moves a dispatched record only, a failure any, an unknown id none |
| `Governors.CallAdapter` | src/governor.cpp:372-394 | the switch gives the adapter's answer exactly for the six throttling classes with a throttle adapter registered, and otherwise unavailable with the note that says why |
| `Governors.Governor.Dispatch` | src/governor.cpp:345-413 | the two sections with the class switch between them, when nothing else runs: the adapter's answer for a throttling class with a registered throttle adapter, unavailable and hence failed for everything else; and the code of the first failed test |
| `Governors.Governor.AuthorizeAndDispatch` | src/governor.cpp:415-424 | refused without change, each cause with its code, when the named class is exhausted or nothing is granted; otherwise grant and dispatch in sequence, class switch included |
| `Governors.Governor.OnAcknowledge` | src/governor.cpp:426-437 | only a dispatched record becomes acknowledged |
| `Governors.Governor.OnActionFailed` | src/governor.cpp:439-448 | any record on file becomes failed |
| `Governors.Governor.FindSecondaryHarm` | src/governor.cpp:491-504 | the nested loops answer whether some other conflict holds the workload beyond its hard floor's allowance |
| `Governors.Governor.ReportOutcome` | src/governor.cpp:522-555 | the verdict closes the intervention, settles the conflict and, when resolved, clears the workload's streak |
| `Governors.Governor.SubmitPostActionEvidence` | src/governor.cpp:450-557 | the new state, whole, is what the verification function gives; invalid evidence changes nothing |
| `Outcomes.VerdictIff` | src/governor.cpp:450-557 | one condition for each verdict on the first open intervention: resolved, partly resolved, worsened, without effect, shifted, secondary violation, each with the state of the record and of the conflict; and nothing else changes but the streak of a resolved one's target |
| `Outcomes.NothingJudged` | src/governor.cpp:463-487 | with no intervention open the conflict is measured again and keeps its state |
| `Outcomes.NothingConcerned` | src/governor.cpp:463-473 | evidence about no conflict on record changes no conflict and no intervention |
| `IntegrityKept.IngestKeeps` | src/governor.cpp:127-208 | ingestion keeps every id a record names on record |
| `IntegrityKept.AuthorizeKeeps` | src/governor.cpp:259-343 | authorization keeps every id a record names on record |
| `IntegrityKept.SubmitKeeps` | src/governor.cpp:450-557 | verification keeps every id a record names on record |
| `IntegrityKept.AdvanceEpochKeeps` | src/governor.cpp:100-125 | a restart keeps every id a record names on record |
| `Replays.Replay` | src/replay.cpp:11-45 | the report lists, in id order, exactly the conflicts with selections that the decision made now does not confirm |
| `Machine.RecordsStay` | src/governor.cpp:345-448 | in any step a record stays, names the same order, and never returns to authorized or proposed |
| `Machine.OnlyGrantsAdd` | src/governor.cpp:310-338 | a record appears if and only if an authorization succeeds, under the counter's id |
| `Dispatching.CallIff` | src/governor.cpp:350-394 | a step hands an intervention to an adapter if and only if it begins, with a throttle adapter registered, the dispatch of an authorized record of a throttling class whose fence agrees with the authority on all nine global generations, the workload's generation and its boot |
| `Dispatching.OthersNeverCalled` | src/governor.cpp:385-393 | in every run an intervention of any other class is handed to no adapter |
| `Dispatching.UnservedDispatchFails` | src/governor.cpp:380-411 | a dispatch that finds no adapter calls none and ends with the record failed, whatever runs between its sections |
| `Dispatching.UnservedIsFailedForGood` | src/governor.cpp:395-411 | once such a dispatch is over, its record is failed in every continuation |
| `Dispatching.UnderWayAlways` | src/governor.cpp:350-370 | in every run a dispatch is under way at most once for an intervention, with an adapter or without but not both, and an adapter is at work only on throttling classes |
| `Dispatching.WholeIsAlone` | src/governor.cpp:345-413 | the machine's steps of one dispatch, run one after the other, give the state the method gives, and call an adapter exactly if there is one |
| `Dispatching.AtMostOnce` | src/governor.cpp:345-413 | in every run of interleaved sections no intervention is handed to an adapter twice and no attempt id is used twice |
| `Permissions.GrantsAreAllowed` | src/governor.cpp:287-297 | after any run, a grant is on a known workload below the cap and of a class nothing forbids on it |
| `Permissions.NonPreemptibleSpared` | src/governor_engine.cpp:245-265 | in every run no preemption, replacement or migration, decided on or named by the caller, is granted on a workload non-preemptible at the grant |
| `Permissions.NothingForbiddenGranted` | src/governor_engine.cpp:227-298 | under one policy no grant in the whole history is of a class forbidden on its target |
| `Dispatching.CalledUnderGrantingAuthority` | src/governor.cpp:288-290 | whatever runs between grant and call, the authority at the call agrees with the authority at the grant on everything fenced |
| `Dispatching.SettledStateChangesIff` | src/governor.cpp:395-448 | the state of a settled record changes in a step if and only if a failure is reported on one not failed, its own call still out is answered with another state, or its own dispatch without an adapter comes to its end and it is not failed |
| `Dispatching.UnsettledIff` | src/governor.cpp:395-411 | a settled record is unsettled by a step if and only if the step is the acceptance of its own adapter call still out; in every run its class is then a throttling one |
| `Dispatching.SettledStays` | src/governor.cpp:395-411 | a settled record with no adapter call out stays settled in every continuation |
| `Dispatching.FailureOverwritten` | src/governor.cpp:372-411 | whenever a dispatch can begin that hands over to the throttle adapter, failing it meanwhile and then answering accepted takes the record from settled to unsettled |
| `Witnesses.FailureIsOverwritten` | src/governor.cpp:372-411 | a run from a fresh governor, a throttling class granted, in which a reported failure is overwritten by the acceptance of the call still out |
| `Witnesses.EffectIsOverwritten` | src/governor.cpp:439-448 | a run from a fresh governor, a throttling class granted, in which an effective intervention turns failed with no dispatch under way and its conflict still resolved |
| `Witnesses.NeverDispatchedIsEffective` | src/governor.cpp:478-489 | a run from a fresh governor in which an intervention no adapter was called for turns effective and its conflict resolved |
| `Witnesses.DispatchedOnStaleEvidence` | src/governor.cpp:350-370 | a run from a fresh governor in which no evidence is current any more, so that nothing can be granted, and an intervention is handed to its adapter |
| `Witnesses.DispatchedAtTheCap` | src/governor.cpp:350-370 | a run from a fresh governor in which an intervention is handed to its adapter with its target at the fairness cap |
| `Dispatching.SettledForGood` | src/governor.cpp:345-413 | when every dispatch returns before the next call, what is settled is settled for good |
| `Quarantine.NoGrantAfterRestart` | src/governor.cpp:100-125 | from a restart on, in every run that brings no current evidence, every authorization is refused, for every conflict and class |
| `Quarantine.NoEvidenceNoGrant` | src/governor_engine.cpp:389-412 | without current evidence nothing is authorized |
| `Quarantine.NothingOldIsDispatched` | src/governor.cpp:114-119 | no intervention from before a restart passes the dispatch check after it |
| `Quarantine.RestartStalesFences` | src/governor_engine.cpp:338-342 | a fence that passed before a restart passes after it if and only if the epoch counter was already at its maximum, where it sticks |
| `ClosedLoop.HonestAlways` | src/governor.cpp:522-554 | in every interleaving effective, partially effective and ineffective records carry a reported verdict of that kind |
| `ClosedLoop.ResolvedIff` | src/governor.cpp:450-557 | a conflict becomes resolved in a step if and only if valid post-action evidence on it measures a degradation at or below the threshold, an intervention on it is open, and no other conflict holds the slowed workload beyond its hard floor's allowance |
| `Resolution.LoopClosesIff` | src/governor.cpp:127-557 | from a fresh governor: convincing evidence, a grant of any class, one dispatch and evidence of relief end with an effective intervention and a resolved conflict if and only if the class granted is a throttling one, a throttle adapter is registered and it accepts |
| `Resolution.OthersAreFailedForGood` | src/governor.cpp:385-411 | a grant of any other class, dispatched with whatever is registered and answered, has called nothing and is failed in every continuation, whatever is measured |
| `Resolution.DefaultIsMigration` | src/governor.cpp:281-285 | asked for no class, the class granted is such a one, migration, whenever some known workload the evidence names may be migrated, as under the default policy |
| `Fairness.BoundedDeprivation` | src/governor_engine.cpp:300-307 | a workload's streak never exceeds the cap, and its interventions in a run are at most the cap times one more than the epoch advances and resolved verifications on it |
| `Fairness.StreakAfter` | src/governor.cpp:331-336 | a step lengthens a workload's streak if and only if it grants on it, clears it if it releases it, and never takes it past the cap |
| `Fairness.LastInterventionIsLast` | src/governor.cpp:331-336 | the table's last intervention time is that of the last grant on the workload in the whole history |
| `Fairness.DisruptiveIff` | src/governor_engine.cpp:17-39 | the cooldown applies to every class but those five |
| `Authorizing.CountsAll` | src/governor.cpp:331-336 | the table's intervention count is the number of grants on the workload in the whole history, up to where the counter saturates |
| `Fairness.DisruptionsAreSpaced` | src/governor.cpp:300-308 | by a positive clock that does not go back, a grant of any class but doing nothing, observing, protecting, escalating or asking for an operator comes at least the cooldown after every earlier grant on its target |
| `Fairness.DisruptionRate` | src/governor.cpp:300-308 | an interval of length T holds at most T divided by the cooldown, plus one, grants outside those five classes on a workload |
| `Budgets.BudgetIsExact` | src/governor.cpp:217-255 | each counter is the number of grants of its family since the window began and within its limit, and counters and uncounted grants add up to the total |
| `Budgets.RateBound` | src/governor.cpp:217-255 | any interval as long as the window holds at most twice a family's limit of grants |
| `RateWitness.RateAttained` | src/governor.cpp:217-255 | for every budgeted family a run from a fresh governor in which an interval as long as the window holds exactly twice its limit |
| `RateWitness.RateSampleQualifies` | include/contention/policy.hpp:70-120 | the default policy but for cooldown, cap and a limit meets what that run asks for |
| `Budgets.CountersCountRecords` | src/governor.cpp:217-237 | each counter is the number of intervention records on file of its family authorized since the window began |
| `Budgets.ReliefIff` | src/governor.cpp:217-255 | a step makes an exhausted family available if and only if it grants something, of any class, when the window is over, and the family's limit is not zero |
| `Budgets.StaysExhaustedIff` | src/governor.cpp:217-255 | over a run an exhausted family stays exhausted throughout if and only if no step is such a grant |
| `Budgets.TimeAloneGivesNoRelief` | src/governor.cpp:298-299 | when every authorization names, or decides on, an exhausted family, none is ever granted, whatever the clock says |
| `Witnesses.RefusedUntilOthersAct` | src/governor.cpp:298-329 | a run from a fresh governor after which a class used once is refused at every later time, until another class is granted after the window |
| `Budgets.OverrunIff` | src/governor.cpp:217-237 | a grant takes the total past its limit if and only if it finds it there already with the window not over |
| `Budgets.TotalKeptIff` | src/governor.cpp:217-255 | over a run the total is the number of grants since the window began, and is held to its limit throughout if and only if there is no such grant |
| `Witnesses.TotalPassesLimit` | src/governor.cpp:217-255 | a run from a fresh governor with a limit of one in all and two grants at one moment |
| `Witnesses.SampleQualifies` | include/contention/policy.hpp:70-120 | the default policy, one known workload and one piece of evidence meet what the runs ask for, with the throttle class named and with the class left to the default, which is migration |
| `Agreement.AuthorizeIff` | src/governor.cpp:259-308 | asked for no class, authorize refuses if and only if there is no decision, its budget is exhausted or its target cools down; else it grants the decision |
| `Agreement.DecisionPasses` | src/governor.cpp:287-297 | the repeated fence and feasibility checks never fail for the decision |
| `Agreement.TotalIsNotChecked` | src/governor.cpp:239-255 | neither the total used nor its limit makes a difference to any authorization |
| `Agreement.ProtectionGranted` | src/governor.cpp:281-308 | where there is a decision, protecting work is granted on its target whatever budget, cooldown and policy say |
| `Agreement.OverrideKeepsTarget` | src/governor.cpp:281-285 | a class asked for replaces the decision's class but never its target |
| `Agreement.DecisionAfter` | src/governor.cpp:331-336 | after a grant each conflict's decision is what it was, or, when the grant takes its target to the cap, the best feasible pair off that target |
| `Agreement.GrantVerdict` | src/replay.cpp:18-39 | what replay says after a grant of any conflict, whatever was selected before: it changes for another conflict only if the grant takes its target to the cap and that conflict's decision was on it; then, and for the conflict granted on, it diverges if and only if it has selections and the decision left is missing or matches none |
| `Agreement.ReplayAgrees` | src/replay.cpp:11-45 | after any successful authorizations, none taking to the cap the workload a conflict's decision is on and none of that conflict taking its target there, replay reports the conflict if and only if it did before and it was not authorized |
| `Agreement.ReplayAgreesBelowCap` | src/replay.cpp:11-45 | so for every conflict when the workloads granted on end below the cap |
| `Agreement.FirstGrantDivergesIff` | src/replay.cpp:18-39 | right after a conflict's first selection replay reports it diverged if and only if the grant took its target to the cap |
| `Divergence.DivergesIff` | src/replay.cpp:18-39 | in every state replay reports a conflict diverged if and only if something was selected for it and it does not pass the gates, or the best pair for it is none of the class and target pairs selected |
| `Divergence.VerdictAfter` | src/replay.cpp:11-45 | after any step the verdict is that of the selections before it and the step's own grant against the state after it; the lifecycle of interventions and refused requests leave every verdict, and a restart makes exactly the conflicts with a selection diverge |
| `Divergence.ResolvedDiverges` | src/governor.cpp:505-557 | a step that verifies a conflict as resolved with a degradation below the threshold makes it diverge |
| `Divergence.SelectedIsLog` | src/governor.cpp:310-341 | in every run what is selected for a conflict is what the history grants for it |
| `Divergence.ReplayInRuns` | src/replay.cpp:11-45 | in every run from a state with nothing selected replay reports a conflict diverged if and only if something was granted for it and it no longer passes the gates, or the best pair for it now is none of those granted |
| `Witnesses.DivergesAtTheCap` | src/replay.cpp:18-39 | right after a first grant from a fresh governor replay reports the conflict diverged if and only if the cap is one |
| `Witnesses.DivergesAfterRestart` | src/replay.cpp:18-39 | a run from a fresh governor, of any cap, that a restart makes diverge |
| `Witnesses.DivergesWhenResolved` | src/replay.cpp:18-39 | a run from a fresh governor whose conflict is resolved and diverges |
| `EvidenceLog.IntegrityAlways` | src/governor.cpp:287-290 | in every run each id a record names is on record |
| `EvidenceLog.TableIsLog` | src/governor.cpp:127-208 | in every run from an empty table there is one conflict for each victim and domain evidence arrived about; its degradation is the greatest since the last post-action report, its evidence in order of arrival, its interferers those named last; ids are below the counter |

## Left out

- Sockets, listeners, `select`, host lookup and process control: foreign calls; `recv` is any non-empty chunk, a failure for this once or a lasting end, and `send` any non-empty prefix or a failure.
- Files and renaming in `save_state` and `load_state`: only the bytes are modelled.
- `Governor::open` and `Governor::load`: they replace the state without taking the lock, so they are not sections of the machine.
- Adapters: one arbitrary answer for each call to the throttle adapter, the only one dispatch uses; what the adapters do is not modelled.
- The distributed message codec, command line, benchmark, examples and CUDA proof.
- Text of statuses, reasons and ranking traces, and names of enumeration values; rejections and causes of infeasibility are told apart by value or not kept.
- The digest: it is a hash of the saved bytes, and no claim is made about collisions.
- Read-only queries of the governor, and the unused static counter of intervention ids.
- Rounding, infinities and not-a-number in decisions: evidence and policy are finite reals there, and what they derive is not rounded; the gates alone are also stated on bit patterns, in `Meaning`.
- Loading.LoadFromBytes: the refusals of fields inside the payload are one value, since the program tells them apart only by text; a null data pointer is the empty buffer.
- Saving.SaveToBytes: string lengths and collection sizes are those of a 64-bit machine, and the host is little-endian where the program copies memory.
- Loading.Reader.U64: the bitwise or of shifted bytes is their sum.
- Evaluator.StableSort: the library's sort is an insertion sort, with the library's promise as its contract; so is the sort of ids.
- Resolution.LoopClosesIff: one kind of run, a single conflict; when a conflict resolves in general is ClosedLoop.ResolvedIff.
- Meaning.RestoredDecidesIff: whether there is a decision, not which; the pair depends on the workloads' values, which are compared as reals.
- Budgets.BudgetIsExact: runs in which the policy is replaced are not covered, since a new policy brings its own counters and limits.
- Fairness.BoundedDeprivation: runs in which the policy is replaced are not covered, since a new policy brings its own cap.
- Policy fields no decision reads (release threshold, hysteresis count, fairness floor, cost ceiling): carried in the codec and in validation only.
