# dsd-neo: a verified model of its learner, coders, trackers and lifecycle

This project models, in Dafny, the parts of dsd-neo whose correctness rests on state and arithmetic rather than on
signal quality, and proves what each is for. `dafny verify dfyconfig.toml` checks all of it.

**The noise squelch learner** (`SquelchLearner*.dfy`, `ContextCache.dfy`). `run_learner` holds a learned noise reference,
steps it down when the source is turned down, undoes a step a carrier refutes, takes an undone step back when noise
returns at its level, and remembers eight source contexts. `SquelchLearner` states one window as functions of the
state; measurements and spectral tests are arbitrary functions (`Acoustics`), so nothing proved depends on a signal.
`SquelchLearnerLoop` is the loop itself, a class whose fields are the loop's variables and whose methods update them in
place, proved against those functions. `SquelchLearnerHistory` and `SquelchLearnerRuns` prove, over every run of windows
from every seed: at most one of the held reference and the refuted step exists; every refutation restores the reference
in force before the first step it undoes, also across a change of context and back; the mode graph; the gate traced back
to the window that opened it; the resumption of a context left. Which runs change the learner's mind is told by the runs
themselves, not by its counts: `SquelchLearnerRefuting` for refutations, `SquelchLearnerBack` for steps taken back,
`SquelchLearnerStepping` for replacements, steps and drift, `SquelchLearnerStreaks` for what it waits for.
`SquelchLearnerTiming` proves how long a change of mind takes, and `SquelchLearnerLimits` which parameters the guarantees
need, exactly. `ContextCache` proves that a map with use stamps which evicts the least stamp remembers exactly the eight
contexts used last.

**TETRA and DCS coding** (`Bits`, `Gf2Poly`, `Lfsr`, `Interleaving`, `TetraCrc`, `TetraBlock`, `TetraSpeech`, `DcsGolay`).
Numbers are read as polynomials over GF(2), and shift registers are proved to compute remainders. From that follow the
one value that completes a CRC, exactly which errors it misses, the decoder that inverts a coded control block and the
TCH/FS block, exactly when an interleaver or a puncture pattern loses nothing, and the agreement of the two DCS encoders
without trying 2048 completions. What is sent is stated bit by bit: which input bits its generator sums, where it lands
and which key bit it is under. The constants are those of EN 300 392-2 clause 8.2 and EN 300 395-2 clause 5.5.

**The session phase tracker** (`SessionPhase`, `SessionPhaseRuns`, `SessionPhaseAttempts`). The class follows
`SessionPhaseTracker` method by method. Over every sequence of calls: a stop request is an overlay that changes nothing
but the published phase and itself; how long it stands, exactly; what a session's start, work and end publish; failures
stick; the start grace runs out; a dismissed result stays quiet.

**The event feed** (`Fingerprint`, `EventFeed`, `EventFeedRuns`). The feed keeps one fingerprint per ring row and sends
what differs. It is proved against the ring's own contents: what replaying its lines gives, exactly when that is the
ring's row, and which lines announce a row and which update it.

**The JNI lifecycle** (`JniLifecycle`, `JniResults`, `LogPump`). The native calls are atomic steps of any number of
threads. No stop is lost, and each of the three precautions (latch before raise, re-raise in the start hook, no stop while
configuring) is shown necessary: the statement holds of a design if and only if it has all three. Which result a run
records is told from the schedule. The log pump is proved equal to a line splitter whatever the reads.

**The threshold search** (`Thresholds`, `ThresholdSearch`). Prefix sums over a histogram against direct counts, and the
search over them for the pair deepest inside what every plan accepts.

## Where the code departs from what it is taken to do

- A control block whose encoder input is even but not a multiple of 4 cannot be coded at its full 3/2 length: the last
  pair of bits is one bit short (`TetraBlock.RoundTrip`: it codes if and only if the block is a multiple of 4 bits).
- A change undone between two looks of the feed is never sent, and rows pushed to a new ring before its first look are
  not either (`EventFeedRuns.UndoneChangeIsMissed`, `NewRingStartsFromItsFirstLook`; `ReplayIsExact` says exactly which
  rows a replay has).
- A row put in the place of one that shares its fingerprint is never sent. The replay is exact in every run of a set of
  rows if and only if no two of them collide (`EventFeedRuns.ReplayExactIff`).
- The log pump hands over a C string, so a piece holding a NUL byte is cut there (`LogPump.WholeExactlyWithoutNul`: the
  records are the whole pieces if and only if none submitted as text holds one).
- The comment in `nativeRun` says a result is retained until the next configure. It is if and only if no run is refused
  before that with none active (or the result is a refused run's already); such a run overwrites it
  (`JniLifecycle.ResultRetainedExactly`,
  `CompletedResultOverwritten`). An active run's status is never touched.
- At threshold index 0 the prefix sums count a window below the first edge as if it were at it
  (`Thresholds.RuleCountsExactly`: they are exact if and only if no window is so placed, always so from index 1 on).
- Leaving the no-band state sets the reference without the bands taking part in it; they follow in the same window only
  because its level counts as confirmed. They always do if and only if the level step is positive and the no-band count
  at least one (`SquelchLearnerLimits.BandsFollowIff`); every parameter set in the repository has both.
- A gate opened at N dB stays open at N dB only while the close threshold is no higher than N: in every run if and only
  if N is at least 1.5 (`SquelchLearnerLimits.GateHeldIff`); the repository's range starts at 3.
- The mode graph holds in every run if and only if the no-band count is at least one (`SquelchLearnerLimits.ModeGraphIff`).

## Model

| member | source | states |
|---|---|---|
| SquelchLearner.CloseDb | tools/pcm_noise_squelch_model.py:408-409 | The close threshold is the higher of N - 3 dB and 1.5 dB, and no higher than N exactly from 1.5 dB on |
| SquelchLearner.Measured | tools/pcm_noise_squelch_model.py:597-846 | One run of windows keeps the core coherent (never both a held reference and a refuted step; a refuted step exactly over a proven reference; a reference under either and while judging), divides by no empty sum, leaves the gate alone and changes the reference only by adding to the history |
| SquelchLearner.Heard | tools/pcm_noise_squelch_model.py:589-863 | A window, silent or not, keeps the same, and reports the mode and gate it leaves |
| SquelchLearner.Judged | tools/pcm_noise_squelch_model.py:651-686 | A confirmed new level keeps the core coherent, and a gain step is pending only with a reference (which level does what is `SquelchLearnerStepping.JudgedExactly`) |
| SquelchLearner.ArrivedWell | tools/pcm_noise_squelch_model.py:559-588 | A change of context or a restart keeps the learner and every remembered context coherent |
| SquelchLearnerLoop.RunLearner | tools/pcm_noise_squelch_model.py:504-864 | The whole loop yields, for every seed and windows, the modes, gates, quieting and final core of the run the theorems are about, those of when a step is taken, refuted and taken back included |
| SquelchLearnerLoop.Learner.constructor | tools/pcm_noise_squelch_model.py:526-557 | The loop's variables start as seeded, with nothing held, undone or remembered |
| SquelchLearnerLoop.Learner.Hear | tools/pcm_noise_squelch_model.py:558-863 | One turn of the loop is one step of the run, its cache included |
| SquelchLearnerLoop.Learner.Leave | tools/pcm_noise_squelch_model.py:560-570 | Leaving a context stores what it learned, evicting the least recently used, and nothing while learning |
| SquelchLearnerLoop.Learner.Enter | tools/pcm_noise_squelch_model.py:571-584 | Entering one takes what is remembered of it and renews its stamp, or starts afresh |
| SquelchLearnerLoop.Learner.Measure | tools/pcm_noise_squelch_model.py:598-846 | The phases of a run, in their order, update the variables as the functions say |
| SquelchLearnerLoop.Learner.Renew | tools/pcm_noise_squelch_model.py:651-691 | A new stretch: what it makes of the reference and mode, and its first marks |
| SquelchLearnerLoop.Learner.RefuteStep | tools/pcm_noise_squelch_model.py:711-731 | A refutation in place: marks kept over ten runs, the held reference brought back, the step kept, at exactly the runs `SquelchLearnerRefuting.RefutedExactly` names |
| SquelchLearnerLoop.Learner.TakeBackStep | tools/pcm_noise_squelch_model.py:741-764 | A refuted step taken back in place, the reference it replaces held |
| SquelchLearnerLoop.Learner.Lower | tools/pcm_noise_squelch_model.py:772-799 | A lower level's evidence and step, in place |
| SquelchLearnerLoop.Learner.TakeGain | tools/pcm_noise_squelch_model.py:802-821 | A pending gain step counted, taken or dropped, in place |
| SquelchLearnerLoop.Learner.TakeStale | tools/pcm_noise_squelch_model.py:823-836 | A stretch open too long becomes the reference, as a held step, in place |
| SquelchLearnerLoop.Learner.Track | tools/pcm_noise_squelch_model.py:839-846 | A run near the reference draws it along, in place |
| SquelchLearnerHistory.OpeningIsFirst | tools/pcm_noise_squelch_model.py:751-756 | The step a refutation would undo first: a step taken back, or one taken while none stood, with only steps and drift since |
| SquelchLearnerHistory.Extends | tools/pcm_noise_squelch_model.py:711-728 | Any recorded change keeps every earlier refutation a restoration and the history chained |
| SquelchLearnerHistory.RefutedSound | tools/pcm_noise_squelch_model.py:720-728 | A refutation brings back the reference before the first held step and keeps the undone one |
| SquelchLearnerHistory.SteppedSound | tools/pcm_noise_squelch_model.py:790-795 | A step on a held one keeps the reference from before the first |
| SquelchLearnerHistory.TakenBackSound | tools/pcm_noise_squelch_model.py:751-756 | Overwriting the held reference when taking a step back loses nothing |
| SquelchLearnerHistory.MeasuredSound | tools/pcm_noise_squelch_model.py:597-846 | Every run of windows keeps the history sound |
| SquelchLearnerRuns.RefutationRestores | tools/pcm_noise_squelch_model.py:711-728 | In every reachable state each refutation restored exactly the reference in force before the first step held since the last replacement, refutation or take-back, and the held reference exists exactly while a step stands |
| SquelchLearnerRuns.RefutationRestoresAcrossContexts | tools/pcm_noise_squelch_model.py:559-584 | The same of every remembered context, with the history it was left with |
| SquelchLearnerRuns.HistoryIsComplete | tools/pcm_noise_squelch_model.py:504-864 | Within a context no change of the reference escapes the history |
| SquelchLearnerRuns.ModeGraph | tools/pcm_noise_squelch_model.py:612-686 | Learning is never re-entered in a context, provisional comes from learning or no band, known from provisional, no band leads only to provisional, with a no-band count of at least one; and whatever the count, learning is not re-entered and a reference exists while judging |
| SquelchLearnerRuns.GateTracesBack | tools/pcm_noise_squelch_model.py:847-863 | An open gate traces back to a window of N dB or no band, since which none was silent, restarted or of another context and each kept the close threshold; and from N = 1.5 dB on any such window means an open gate |
| SquelchLearnerRuns.ResumesAsLeft | tools/pcm_noise_squelch_model.py:559-584 | A context come back to resumes exactly as left while among the eight used last, and afresh otherwise |
| SquelchLearnerRuns.NoLearningRemembered | tools/pcm_noise_squelch_model.py:560-570 | No context is remembered that was still being learned |
| SquelchLearnerRuns.BandsFollowReference | tools/pcm_noise_squelch_model.py:628-691 | With a positive level step and a no-band count of at least one the gate always measures over the bands of its own reference |
| SquelchLearnerLimits.BandsFollowIff | tools/pcm_noise_squelch_model.py:613-691 | They do in every run, of every signal from every seed, exactly with a positive level step and a no-band count of at least one |
| SquelchLearnerLimits.BandsLag | tools/pcm_noise_squelch_model.py:613-643 | For all other parameters a run of windows ends the no-band state judging a reference over no bands |
| SquelchLearnerLimits.GateHeldIff | tools/pcm_noise_squelch_model.py:847-857 | A window of N dB, kept since at the close threshold, means an open gate in every run exactly from N = 1.5 dB on |
| SquelchLearnerLimits.GateChatters | tools/pcm_noise_squelch_model.py:852-857 | Below it two windows of N dB open the gate and shut it |
| SquelchLearnerLimits.ModeGraphIff | tools/pcm_noise_squelch_model.py:612-686 | Every window of every run follows the mode graph exactly with a no-band count of at least one |
| SquelchLearnerTiming.NoRefutationWithinTen | tools/pcm_noise_squelch_model.py:711-727 | However the signal runs, a step taken, taken back or refuted is not followed by a refutation in its context's next nine windows: what speaks against a step is counted afresh |
| SquelchLearnerTiming.NoTakeBackWithinForty | tools/pcm_noise_squelch_model.py:741-756 | A refuted step is not taken back before forty runs, the refuting one included |
| SquelchLearnerTiming.TakenBackByForty | tools/pcm_noise_squelch_model.py:741-764 | A refuted step whose evidence keeps matching is taken back within forty runs, unless the reference is replaced or stepped down before |
| SquelchLearnerTiming.WeighedPaced | tools/pcm_noise_squelch_model.py:711-846 | The phases of a run in their order: a refutation only on nine marks before its own, a step taken back only on thirty-nine runs before its own, and the marks gone with either and with any step |
| SquelchLearnerRefuting.RefutedExactly | tools/pcm_noise_squelch_model.py:711-731 | Over every run of windows a held step is refuted at exactly the window whose run is weighed (it acts, replaces nothing, and lies less than N dB under the reference) and with which, of the last ten weighed on the stretch since the last step, one taken back or refuted, at least eight speak against the step and two move: by speech, by modulation over a contested step, or by a level above the reference without the shape of noise |
| SquelchLearnerRefuting.RefutedByTen | tools/pcm_noise_squelch_model.py:711-731 | Ten runs in a row that oppose a held step, two of them moving, refute it whatever was weighed before, unless the reference is replaced or stepped first |
| SquelchLearnerBack.TakenBackExactly | tools/pcm_noise_squelch_model.py:741-764 | Over every run a refuted step is taken back at exactly the window with which forty or more runs since the last modulation against it match its spectrum and hold steady three times in four, and to the refuted reference moved by their recent step |
| SquelchLearnerStepping.SteppedExactly | tools/pcm_noise_squelch_model.py:772-846 | Over every run the steps a window takes, and the references they give, are those the runs gathered since the stretch began, the level moved or the last step bear out: a lower level after 20 runs (30 to 240 after refutations), a gain step after ten, each three in four held and down 1.5 dB on average, and a stretch open for 250 runs nine in ten steady; and it draws the reference toward its run exactly when that run may |
| SquelchLearnerStepping.ReplacedExactly | tools/pcm_noise_squelch_model.py:627-682 | A window replaces the reference exactly when its run ends the no-band state or is of a confirmed new level that is noise louder than the reference, and then by that run |
| SquelchLearnerStepping.JudgedExactly | tools/pcm_noise_squelch_model.py:651-686 | What a confirmed new level is: louder noise that replaces the reference, a quieter one that may be a gain step, or a carrier that makes the reference known |
| SquelchLearnerStepping.ModeExactly | tools/pcm_noise_squelch_model.py:654-821 | The mode an acting run leaves: known exactly once a carrier keyed, told by its level, by noise found lower after it, or by ten runs that do not bear out a gain step |
| SquelchLearnerStepping.FellTallies | tools/pcm_noise_squelch_model.py:780-789 | The counts kept of runs that fell say what the runs themselves say, and their mean is the step |
| SquelchLearnerStreaks.StreaksDecide | tools/pcm_noise_squelch_model.py:610-643 | Over every run a window gives up on a band, ends the no-band state, and acts on a new level exactly when its run makes the thin ones, those that show a band, or those near one level, enough in a row |
| SquelchLearnerStreaks.VoicesAreRuns | tools/pcm_noise_squelch_model.py:692-694 | A stretch's voice band is the mean power of the runs that acted on it, and as steady as they were |
| ContextCache.Cache.constructor | tools/pcm_noise_squelch_model.py:540-542 | An empty cache |
| ContextCache.Cache.Store | tools/pcm_noise_squelch_model.py:564-570 | Storing moves the context to the front of the list of eight, the last falling off |
| ContextCache.Cache.Take | tools/pcm_noise_squelch_model.py:573-576 | Looking a context up moves it to the front if it is there |
| ContextCache.Cache.Oldest | tools/pcm_noise_squelch_model.py:564-566 | The entry of least stamp is the last of the list |
| ContextCache.FrontFalling | tools/pcm_noise_squelch_model.py:569-575 | A new stamp keeps stamps distinct and in the order of use |
| ContextCache.EvictingFirst | tools/pcm_noise_squelch_model.py:564-570 | Evicting before storing gives the list that storing before cutting gives |
| ContextCache.RemembersMostRecent | tools/pcm_noise_squelch_model.py:559-584 | After any stores and lookups exactly the eight contexts used last are remembered, each as last stored |
| ContextCache.ResumesWhileRecent | tools/pcm_noise_squelch_model.py:573-576 | A lookup finds the last value stored exactly while fewer than eight others were used since |
| TetraBlock.TetraConvEncode | tools/build_iq_fixtures.py:1227-1236 | Output bit 4 i + lane is the sum of the input bits that the generator polynomial of that lane (EN 300 392-2 clause 8.2.3.1.1) reaches back to from bit i |
| TetraBlock.MotherIsGenerated | tools/build_iq_fixtures.py:1227-1236 | The register computes those sums from a clear start, for every block |
| TetraBlock.Puncture | tools/build_iq_fixtures.py:1308-1312 | Transmitted bit j is mother bit 8 (j / 3) + 1, 2 or 5 as j is 0, 1 or 2 modulo 3, and the index error comes exactly when the last would lie past the end |
| TetraBlock.KeptPositions | tools/build_iq_fixtures.py:1308-1312 | The positions kept are, in ascending order, exactly those that are 1, 2 or 5 modulo 8 |
| TetraBlock.PunctureFits | tools/build_iq_fixtures.py:1310-1312 | The puncture index stays within the mother code of m bits exactly up to (3m + 1) / 2 transmitted bits |
| TetraBlock.TetraScramble | tools/build_iq_fixtures.py:1247-1257 | Every bit is summed with its own bit of the key stream the seed starts, and no bit is lost |
| TetraBlock.ScrambledWithKey | tools/build_iq_fixtures.py:1247-1257 | Scrambling from any point of the key stream sums bit i with the i-th key bit from there |
| TetraBlock.SeedDigits | tools/build_iq_fixtures.py:1248-1248 | The register starts with the seed's binary digits, the least significant first, 32 of them for a 32-bit seed |
| TetraBlock.ScrambleInverts | tools/build_iq_fixtures.py:1247-1257 | Scrambling twice restores the bits, whatever the seed |
| TetraBlock.KeyRecurrence | tools/build_iq_fixtures.py:1250-1256 | Every key bit, from the first on, is the sum of the earlier ones that the scrambling polynomial of EN 300 392-2 clause 8.2.5 names, the seed's bits standing before the first |
| TetraBlock.UnpackInverts | tools/build_iq_fixtures.py:1317-1318 | Unpacking the dibits restores an even number of bits |
| TetraBlock.PackDibits | tools/build_iq_fixtures.py:1317-1318 | Dibit i is twice bit 2 i plus bit 2 i + 1, and the index error comes exactly for an odd length |
| TetraBlock.FeedbackInverts | tools/build_iq_fixtures.py:1230-1235 | Lane 0 of the encoder alone determines the bits |
| TetraBlock.MotherLaneZero | tools/build_iq_fixtures.py:1230-1235 | Every fourth bit of the mother code is lane 0 |
| TetraBlock.LaneZeroSurvives | tools/build_iq_fixtures.py:1308-1312 | At rate 2/3 puncturing keeps lane 0 of every input bit |
| TetraBlock.CodedExactlyWhen | tools/build_iq_fixtures.py:1297-1318 | A block is coded exactly when the transmitted length is even and the mother code long enough |
| TetraBlock.RoundTrip | tools/build_iq_fixtures.py:1297-1318 | At length 3m/2 a block is coded exactly when m is a multiple of 4, and then, with a coprime interleaver and any seed, decoding returns the protected bits and the tail |
| TetraBlock.EveryBitSent | tools/build_iq_fixtures.py:1308-1318 | From the block to the air: the j-th transmitted bit goes out at a j modulo n, the sum of the bit its generator gives at its mother position and the key bit of that place |
| TetraBlock.TetraControlBlockDibits | tools/build_iq_fixtures.py:1297-1318 | The coded CRC-protected info, with the exact condition for success; with a coprime step every bit sent is the one `EveryBitSent` names |
| TetraBlock.TetraBschDibits | tools/build_iq_fixtures.py:1260-1294 | Any 60 info bits decode back; the CRC passes exactly when not corrupted, a corrupted block differs in bit 31 alone, and every bit sent is the one `EveryBitSent` names |
| TetraCrc.TetraCrc16 | tools/build_iq_fixtures.py:1239-1244 | The register loop is the remainder its polynomial defines |
| TetraCrc.Complete | tools/build_iq_fixtures.py:1269-1277 | The search over 65536 candidates always succeeds, with the complement of the info's CRC |
| TetraCrc.OneCompletion | tools/build_iq_fixtures.py:1270-1275 | Exactly one 16-bit value completes info of any length, the complement of its CRC |
| TetraCrc.UndetectedExactly | tools/build_iq_fixtures.py:1239-1244 | Two streams of one length share a CRC exactly when their difference is a multiple of the generator |
| TetraCrc.BurstDetected | tools/build_iq_fixtures.py:1239-1244 | Any error within 16 consecutive bits changes the CRC, of streams of any length |
| TetraCrc.WrongBitsFail | tools/build_iq_fixtures.py:1273-1279 | A protected block wrong within 16 consecutive bits always fails the check |
| TetraCrc.OddErrorsDetected | tools/build_iq_fixtures.py:1239-1244 | Any odd number of wrong bits changes the CRC, so any single one, at any length |
| TetraCrc.SpeechCrc | tools/build_iq_fixtures.py:1371-1382 | The speech parity is X^degree I(X) mod G(X), for any generator (EN 300 395-2 clause 5.5.1) |
| Lfsr.FeedAllIsRem | tools/build_iq_fixtures.py:1371-1382 | A fed shift register holds the polynomial remainder of what it was fed |
| Interleaving.Interleave | tools/build_iq_fixtures.py:1313-1315 | Bit i, counting from 1, lands at a i modulo the length wherever no later bit is written over it, and a cell nothing is written to stays 0, whatever the step |
| Interleaving.InterleaveInverts | tools/build_iq_fixtures.py:1313-1315 | With a coprime step deinterleaving restores every bit |
| Interleaving.InterleaverInvertibleIff | tools/build_iq_fixtures.py:1313-1315 | The interleaver loses nothing exactly when the step is coprime to the length |
| Interleaving.InterleaveMatrix | tools/build_iq_fixtures.py:1425-1428 | Output column * lines + line is input line * columns + column, for every line and column |
| Interleaving.TransposeInverts | tools/build_iq_fixtures.py:1425-1428 | Transposing back restores every bit, for any dimensions |
| TetraSpeech.SegmentEncoder.constructor | tools/build_iq_fixtures.py:1392-1392 | The trellis starts empty |
| TetraSpeech.SegmentEncoder.EncodeSegment | tools/build_iq_fixtures.py:1394-1408 | A segment's kept lanes, and the trellis state it leaves for the next |
| TetraSpeech.SegmentEncoder.KeepLanes | tools/build_iq_fixtures.py:1399-1407 | The lanes of one bit that its column of the pattern keeps |
| TetraSpeech.SegmentCarries | tools/build_iq_fixtures.py:1394-1408 | A segment coded after others sends, for each bit and each lane its pattern keeps, the parity of the five bits up to it under the mask 11111, 11011 or 10101, in position and lane order |
| TetraSpeech.Class2Fed | tools/build_iq_fixtures.py:1419-1421 | Class 2 is fed its bits, their check, b8 set exactly when those hold an odd number of ones, and four zeros |
| TetraSpeech.ParityIsRemainder | tools/build_iq_fixtures.py:1371-1382 | The seven check bits are the digits of X^7 C(X) modulo 1 + X^3 + X^7 |
| TetraSpeech.DecodeInverts | tools/build_iq_fixtures.py:1394-1408 | For every pattern with a lane in each column, from any state, decoding a segment returns its bits and the rest of the stream |
| TetraSpeech.SegmentLosslessIff | tools/build_iq_fixtures.py:1394-1408 | A segment determines its bits exactly when every column of the pattern keeps a lane |
| TetraSpeech.TailEmpties | tools/build_iq_fixtures.py:1421-1423 | Four zero bits empty the trellis from any state |
| TetraSpeech.Class1Length | tools/build_iq_fixtures.py:1410-1416 | Class 1 sends three bits for two |
| TetraSpeech.Class2Length | tools/build_iq_fixtures.py:1413-1421 | Class 2 sends nine bits for four |
| TetraSpeech.TetraTchFsDibits | tools/build_iq_fixtures.py:1385-1435 | For any 274 speech bits and any seed the two blocks decode to those bits, the CRC, the parity and the tail; and every bit sent is class 0 as it is or the parity of the masked five bits up to its own, at its place and under its key bit |
| DcsGolay.GolayRemainder | tools/analog_oracle.py:170-175 | The reduction loop ends, under 2^11, at the polynomial remainder |
| Gf2Poly.RemLinear | tools/analog_oracle.py:170-175 | The remainder is linear over GF(2) |
| Gf2Poly.RemZeroIffMultiple | tools/analog_oracle.py:170-175 | It is zero exactly on the multiples of the generator |
| Gf2Poly.RemUnique | tools/analog_oracle.py:170-175 | It is the only value under the generator's degree that differs from the word by a multiple |
| DcsGolay.Completion | tools/analog_oracle.py:178-189 | Exactly one check pattern completes a word: x^11 d(x) mod g(x) |
| DcsGolay.DcsEncode | tools/analog_oracle.py:178-189 | The search finds the systematic code word, and never fails |
| DcsGolay.DcsWord | tools/build_iq_fixtures.py:1657-1669 | The division gives the same code word, or its complement when inverted |
| DcsGolay.CodeWordRange | tools/build_iq_fixtures.py:1657-1669 | A code word is a multiple of the generator with the marker and code in its low bits |
| DcsGolay.CodeOfExactly | tools/analog_oracle.py:192-196 | A word yields a code exactly when it is that code's word |
| DcsGolay.ComplementCloses | tools/build_iq_fixtures.py:1669-1669 | The complement has the same remainder, so inverted words are code words |
| DcsGolay.RotationCloses | tools/analog_oracle.py:199-201 | A 23-bit rotation is a code word exactly when the word is |
| DcsGolay.TurnsOver | tools/analog_oracle.py:199-201 | Shifting by 23 keeps every remainder |
| SessionPhase.SessionPhaseTracker.constructor | android/session_state_map.h:372-388 | A fresh tracker |
| SessionPhase.SessionPhaseTracker.NoteStartRequested | android/session_state_map.h:93-104 | A start's whole new state, the stop request cleared |
| SessionPhase.SessionPhaseTracker.NoteStartRequestedAfter | android/session_state_map.h:106-112 | The same, waiting for a session past the last |
| SessionPhase.SessionPhaseTracker.NoteRetryRequested | android/session_state_map.h:118-125 | A retry is refused, changing nothing, unless the service reads idle or nothing |
| SessionPhase.SessionPhaseTracker.UpdateRecord | android/session_state_map.h:132-135 | A polled record folds, then the stop request holds; what it publishes over a whole session is `SessionPhaseAttempts.EndIsPublished`, `RunningExactly` and `AttemptReads` |
| SessionPhase.SessionPhaseTracker.UpdateState | android/session_state_map.h:143-146 | The same of a poll without a record |
| SessionPhase.SessionPhaseTracker.NoteStopRequested | android/session_state_map.h:160-172 | A stop is taken only from Starting or Running and once |
| SessionPhase.SessionPhaseTracker.TakeStopExpired | android/session_state_map.h:175-180 | An expiry is reported once |
| SessionPhase.SessionPhaseTracker.NoteStartFailed | android/session_state_map.h:188-196 | A start that could not be handed over fails at once |
| SessionPhase.SessionPhaseTracker.AcknowledgeFailure | android/session_state_map.h:199-207 | A dismissal is taken only of a published failure with the service idle, and starts over |
| SessionPhase.SessionPhaseTracker.FoldOneRecord | android/session_state_map.h:221-254 | Which records count, and what each folds to |
| SessionPhase.SessionPhaseTracker.FoldOneState | android/session_state_map.h:256-282 | A state folds to its phase |
| SessionPhase.SessionPhaseTracker.HoldStop | android/session_state_map.h:290-317 | The stop request over a folded record: held, ended or expired |
| SessionPhase.SessionPhaseTracker.ClearStopRequest | android/session_state_map.h:319-325 | The request is gone and nothing else |
| SessionPhase.SessionPhaseTracker.TerminalPhase | android/session_state_map.h:327-339 | A terminal record latches its outcome and publishes it only once the service is idle, as `SessionPhaseAttempts.EndIsPublished` requires |
| SessionPhase.SessionPhaseTracker.IdlePhase | android/session_state_map.h:349-361 | An idle poll: not yet, failed, or idle |
| SessionPhase.SessionPhaseTracker.LatchFailure | android/session_state_map.h:363-370 | A failure latched, the grace over |
| SessionPhaseRuns.StopIsOverlay | android/session_state_map.h:133-172 | Any calls with and without their stop requests agree in everything but the published phase and the request, and the phases differ only where the stopped one reads Stopping and the other is active |
| SessionPhaseRuns.RequestStandsExactly | android/session_state_map.h:290-317 | A taken request stands, publishing Stopping, until exactly a poll that ends the attempt or one where no STOPPING was seen and an unbroken run of RUNNING spans the grace |
| SessionPhaseRuns.RequestStandsThroughCalls | android/session_state_map.h:149-172 | The same through any calls, further stop requests, refused retries and dismissals among them, a new start or one that failed to be handed over ending it too |
| SessionPhaseRuns.NoClockNoExpiry | android/session_state_map.h:129-130 | In no run of calls whose polls carry no clock does a request expire |
| SessionPhaseRuns.FailureSticks | android/session_state_map.h:341-370 | A failure survives every call but an accepted start, a dismissal or a newer session's record |
| SessionPhaseRuns.FailureEndsGrace | android/session_state_map.h:188-196 | A failure and a running grace never meet, in any run |
| SessionPhaseRuns.OldRecordsRunOutTheGrace | android/session_state_map.h:234-237 | After a start, old sessions' records read Starting seven times, then Failed, never Idle or Running |
| SessionPhaseRuns.DismissedResultStaysQuiet | android/session_state_map.h:199-232 | After a dismissal the session's idle records read Idle, whatever result they retain |
| SessionPhaseAttempts.EndIsPublished | android/session_state_map.h:327-339 | From a session's first terminal record on, whatever records of it, polls and user calls follow, with or without a stop request: Stopping is published while the service holds on to it, and once it lets go, Failed exactly when some record said RunFailed or a failure stood, and Idle otherwise |
| SessionPhaseAttempts.RunningExactly | android/session_state_map.h:256-282 | Over every run of calls Running is published exactly from a poll of a RUNNING service with the engine running, told by the state or by a record that counts without a result and with no stop request standing, until the next call that tells anything |
| SessionPhaseAttempts.AttemptReads | android/session_state_map.h:256-361 | An accepted start: at work the last poll reads as it says, RUNNING without the engine as Stopping exactly once the engine had been seen; idle polls after work read Idle exactly when it had been, and Failed otherwise; with no work they read Starting seven times and then Failed |
| Fingerprint.StepBijective | src/api/api_feed.c:230-233 | For a fixed byte each hash step is a bijection of the 64-bit state |
| Fingerprint.StepInjectiveInByte | src/api/api_feed.c:230-233 | For a fixed state it is injective in the byte |
| Fingerprint.HashKeepsApart | src/api/api_feed.c:230-254 | States once apart stay apart over any bytes |
| Fingerprint.OneByteChangesHash | src/api/api_feed.c:230-311 | Streams of any length that differ in exactly one byte have different hashes |
| Fingerprint.RowBytesExact | src/api/api_feed.c:256-311 | Two rows give the same bytes exactly when every field reads the same, text only up to its terminator |
| Fingerprint.TextBytesDelimited | src/api/api_feed.c:244-254 | A text field's bytes end themselves: what follows cannot be read into it |
| Fingerprint.Fnv1aU64 | src/api/api_feed.c:235-242 | The loop hashes the eight bytes, low first |
| Fingerprint.Fnv1aStr | src/api/api_feed.c:244-254 | The loop hashes up to and with the terminator |
| Fingerprint.RowFingerprint | src/api/api_feed.c:256-311 | The fingerprint is the hash of the row's bytes |
| EventFeed.SlotFeed.constructor | src/api/api_feed.c:339-347 | A slot's memory, sized for its ring |
| EventFeed.SlotFeed.EhBaseline | src/api/api_feed.c:339-347 | The memory becomes the ring's counters and fingerprints |
| EventFeed.SlotFeed.GatherSlotEvents | src/api/api_feed.c:351-378 | The memory a look leaves, and its lines: one, oldest first, for exactly the rows pushed since the last look or whose fingerprint differs from then and that do not read as blank, each with its ring, slot, push and content, and an update exactly when its row had been pushed at the last look |
| EventFeed.SlotFeed.ShiftDown | src/api/api_feed.c:365-368 | The fingerprints move down in place with the rows pushed |
| EventFeed.SlotFeed.SendChanged | src/api/api_feed.c:369-375 | The same of the loop itself, and every fingerprint is current |
| EventFeed.Feed.constructor | src/api/api_feed.c:384-389 | Two slots, and nothing valid |
| EventFeed.Feed.TrackEvents | src/api/api_feed.c:384-404 | A publish looks at both rings, or forgets them when there are none |
| EventFeedRuns.ReplayIsExact | src/api/api_feed.c:327-404 | For every interleaving of pushes, changes, clears, new rings and looks whose rows do not collide, the last line of a row is its content exactly when some earlier look since the subscription read it otherwise, and there is none if not |
| EventFeedRuns.ReplayExactIff | src/api/api_feed.c:349-378 | The replay is exact in every run of a set of rows exactly when no two of them share a fingerprint |
| EventFeedRuns.CollisionIsMissed | src/api/api_feed.c:369-375 | A row put in the place of one it collides with is never sent |
| EventFeedRuns.FnvReplayIsExact | src/api/api_feed.c:230-404 | With the feed's own FNV-1a hash the replay is exact in every run of rows that differ from each other a byte at a time |
| EventFeedRuns.FnvOfFields | src/api/api_feed.c:256-311 | A row reaches the feed as the hash of its fields' bytes, and two rows are the same exactly when every field reads the same |
| EventFeedRuns.PushedRowsArrive | src/api/api_feed.c:380-404 | Every row pushed since a subscription, to a ring the feed was on, is replayed with its current content at the next heard publish, whatever was pushed, changed and cleared in between |
| EventFeedRuns.ChangedRowsArrive | src/api/api_feed.c:369-404 | Of a subscription right after a publish, so is every row whose content is no longer the ring's at the subscription |
| EventFeedRuns.NewAndChangedRowsArrive | src/api/api_feed.c:380-404 | In a run of rows that do not collide, every row that the look an account starts from did not read as it is now is replayed with its content |
| EventFeedRuns.UndoneChangeIsMissed | src/api/api_feed.c:369-375 | A change undone between two looks is not |
| EventFeedRuns.NewRingStartsFromItsFirstLook | src/api/api_feed.c:353-357 | Nor a row pushed to a new ring before its first look |
| EventFeedRuns.UnsentMeansSame | src/api/api_feed.c:369-375 | A row is passed over exactly when the last look read it under the same push with the same content |
| EventFeedRuns.AnnouncementsAreUnique | src/api/api_feed.c:369-375 | No push of a ring is announced as new twice nor after an update of it, in any run and whatever the fingerprints |
| EventFeedRuns.UpdateExactly | src/api/api_feed.c:369-375 | Over every run, each line a client has was sent at some publish, of a row the ring held there, and is an update exactly when its push is not above the push_seq of the ring read at the publish before |
| EventFeedRuns.PushIsAnnounced | src/api/api_feed.c:365-375 | A heard publish sends every row pushed since the last one that does not read as blank as new, with its content, in the one line a client has of it |
| EventFeed.GatheredReports | src/api/api_feed.c:369-375 | Each batch is in ascending push order, one line for every row that differs and none for the others, from either slot |
| EventFeedRuns.RowKeepsIdentity | src/core/util/dsd_events.c:124-212 | Through any run that leaves it undisturbed a row keeps its ring, push number and content, one place deeper for every push |
| EventFeedRuns.LatestInBatch | src/api/api_feed.c:327-375 | A batch carries a row exactly when the diff sends it, as it is in the ring |
| JniLifecycle.OneRunOwnsTheEngine | android/dsdneo_jni.cpp:496-532 | In every interleaving at most one run is active, the memory it took is not freed, no other call holds the engine, and the status is its own session's, pending until its result |
| JniLifecycle.ActiveRunUntouched | android/dsdneo_jni.cpp:499-508 | Through any schedule in which an active run's own thread takes no step, duplicate runs and every other call included, the run keeps its status and its engine |
| JniLifecycle.ResultUntilConfigure | android/dsdneo_jni.cpp:499-526 | In every interleaving a recorded result stands until a configure begins, or becomes a refused run's at the first run refused with none active; nothing else writes it |
| JniLifecycle.ResultRetainedExactly | android/dsdneo_jni.cpp:499-526 | It is retained until the next configure exactly when no run is refused meanwhile with none active, or it was a refused run's already |
| JniLifecycle.CompletedResultOverwritten | android/dsdneo_jni.cpp:500-507 | A reachable completed result that a refused run overwrites |
| JniLifecycle.StepRetains | android/dsdneo_jni.cpp:419-608 | With a result recorded no step of any call writes the status but a configure's begin and a run refused with none active |
| JniLifecycle.AlwaysSound | android/dsdneo_jni.cpp:419-608 | Lock, ownership and attribution hold in every reachable state |
| JniLifecycle.ShippedKeepsStops | android/dsdneo_jni.cpp:366-388 | With stops kept clear of configure, a completed stop is latched, and raised wherever the decode loop runs |
| JniLifecycle.RaiseFirstLosesStop | android/dsdneo_jni.cpp:577-584 | Raising before latching loses a stop: a run that shows it |
| JniLifecycle.SilentHookLosesStop | android/dsdneo_jni.cpp:374-388 | Without the hook's re-raise the engine's reset loses one |
| JniLifecycle.OverlapLosesStop | android/dsdneo_jni.cpp:463-480 | A stop overlapping configure can be lost |
| JniLifecycle.NoStopLostIff | android/dsdneo_jni.cpp:75-85 | No stop is lost in any interleaving exactly with all three precautions |
| JniResults.RecordedResult | android/dsdneo_jni.cpp:514-526 | In every interleaving a run with its result recorded came back from the engine at one step and recorded at a later one: the code is what the engine came back with, and the reason is Cancelled exactly when a stop was latched since configure by then, and otherwise Completed exactly for code 0 |
| JniResults.StoppedIsCancelled | android/dsdneo_jni.cpp:520-526 | Under the shipped protocol a run is recorded as Cancelled whenever a stop returned, since configure, before its result was recorded |
| JniResults.FlagsTell | android/dsdneo_jni.cpp:467-468 | The latch is set exactly when some stop stored it with no configure clearing it since |
| JniResults.StartedExactly | android/dsdneo_jni.cpp:374-388 | Past its start hook a run is marked as started exactly when the hook's first look found no stop latched since configure |
| JniResults.ConfigureEnds | android/dsdneo_jni.cpp:451-489 | A configure whose bootstrap has run leaves the engine configured exactly when it went through, and its own session pending, or failed with STATUS_ERROR unless the bootstrap made a clean exit |
| JniResults.StopsOnlyInitialised | android/dsdneo_jni.cpp:574-585 | A stop is under way, and so latched or raised, only where nativeStop found the engine initialised |
| LogPump.PumpByte | android/dsdneo_jni.cpp:109-133 | A byte's effect on the line, the oversized mark and the records |
| LogPump.PumpChunk | android/dsdneo_jni.cpp:109-134 | A read's bytes continue the line where the last read left it |
| LogPump.Pump | android/dsdneo_jni.cpp:94-143 | For every stream and every division into reads, interrupted ones included, the records are the splitter's |
| LogPump.RecordsPieceByPiece | android/dsdneo_jni.cpp:109-139 | The splitter: each terminated piece gives its text, nothing when empty, one marker from 1024 bytes on; an unterminated oversized tail is dropped |
| LogPump.WholeExactlyWithoutNul | android/dsdneo_jni.cpp:109-139 | The records of a stream are its whole pieces exactly when none submitted as text holds a NUL |
| Thresholds.BinUnder | tools/squelch_model.py:712-716 | A value's bin is under an edge exactly when the value is, from the first edge on |
| Thresholds.JointIsBox | tools/squelch_model.py:877-878 | The two running sums give the count of a corner box |
| Thresholds.NoiseIsBox | tools/squelch_model.py:880-883 | The noise sums give the count of the opposite corner |
| Thresholds.RuleCountsExactly | tools/squelch_model.py:869-884 | The counts are the direct counts of both rules exactly when no window is misplaced, always from index 1 on, and sum to the total |
| ThresholdSearch.ScoreMeansAccepted | tools/squelch_model.py:990-998 | A score of at most 1 means every plan accepts the pair |
| ThresholdSearch.CarrierScoreIsExcess | tools/squelch_model.py:990-992 | A CARRIER score is at most t exactly when every plan keeps false carriers and misses within t times their targets |
| ThresholdSearch.NoiseScoreIsExcess | tools/squelch_model.py:996-998 | A NOISE score is at most t exactly when every plan keeps pollution and undecided noise within t times theirs |
| ThresholdSearch.ArgMax | tools/squelch_model.py:994-995 | The first of the largest entries |
| ThresholdSearch.ArgMin | tools/squelch_model.py:1005-1006 | The first of the smallest allowed entries, the first cell where none is allowed |
| ThresholdSearch.BestPair | tools/squelch_model.py:993-1006 | The first of the accepted pairs deepest inside the region, or of those of least excess where none is accepted |
| ThresholdSearch.ChooseThresholds | tools/squelch_model.py:982-1016 | The pairs keep t3 >= t1 and t4 <= t2; each is accepted by every plan whenever any such pair is, and is then the deepest inside the region all plans accept; otherwise whatever multiple of the targets some pair keeps every plan within, the chosen one does too |
| ThresholdSearch.DepthInside | tools/squelch_model.py:887-892 | A cell's depth is its least distance, in feature units and squared, to a cell outside the region or the grid: positive exactly inside |
| ThresholdSearch.GapByAxes | tools/squelch_model.py:892-892 | The distance squared between two cells is the sum of the squares along the axes: rows in steps of the x axis, columns in steps of the y axis |
| Thresholds.MiscountedAtZero | tools/squelch_model.py:712-716 | A window under both first edges that the counts at index 0 take for noise and not for a carrier |
| Thresholds.VerdictMatchesSurface | tools/squelch_model.py:1024-1039 | At any pairs the search can return no window is both, and the counts window by window are the surfaces' exactly when no window is misplaced |

## Left out

- Signal processing: `noise_step`, `voice_louder`, `participating`, `usable_hz`, `window_q`, the levels and the median
  tests are arbitrary functions or inputs of the learner; what follows from their own arithmetic is not stated. That
  `usable_hz` raises on a missing mask is not modelled; `BandsFollowReference` says when none is missing.
- Floating point: levels, rates and fractions are real numbers, so rounding (float32 surfaces, 0.9 of a count) is not
  modelled.
- The learner's measured arrays: a window carries the run ending at it, as if taken from the last m windows.
- ThresholdSearch.DepthInside: distances are compared by their squares, without the roots; the order is the same.
- The JNI lifecycle is a state machine over values: threads interleave at accesses to shared state, sequentially
  consistent; memory ordering weaker than that is not modelled. Marshalling, USB and upload cancellation are not either.
- The engine body, but for its reset of the exit flag and its call of the start hook.
- The event rings' writer: pushes, changes in place, clears and new rings, with the counters each bumps, from
  `src/core/util/dsd_events.c`; the two rings are followed alike, so the runs follow one. Counters do not wrap.
- JSON encoding of feed lines and UTF-8 decoding of log records: lines and records carry rows and bytes.
- EventFeedRuns.ReplayIsExact: of rows that share a fingerprint it says nothing; `ReplayExactIff` says such rows are the
  only ones it cannot cover. A row there is what a client reads of it, its fields' bytes.
- A ring's random instance is any number no ring had before.
- Service names are the constants they compare equal to.
- TetraBlock.KeyRecurrence: stated of a 32-bit register, as every caller's seed is; a wider seed keeps its high bits in
  front of it, which the round trips allow.
- The fixture payloads: the coding functions take any payload.
- Downloads, packaging, reports, the Qt and Kotlin layers and everything drawn: input, output and user interface.
