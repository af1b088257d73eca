# Verified models of the telephone-line modems

This project models the integer and state-machine cores of the repository and proves what they keep over whole runs:
the G.722 sub-band codec of the SIP bridge, the V.22bis data path, handshake and clocks, the FSK start-stop framers,
the elastic relay and polyphase resampler of the line simulator, and the byte plumbing between them.

`dafny verify dfyconfig.toml` checks everything. No file depends on anything outside this directory.

## How the models are built

- **Two forms of one thing.** Where the C code updates structures in place, a class does the same and every method is
  proved equal to a function on values (`State() == Step(old(State()))`). The properties are then lemmas about those
  functions, mostly by induction over the run.
- **Exact integers.** The codec's 16-bit operators, tables, shifts (floor division) and saturations are modelled
  bit for bit over `int`; nothing is assumed not to overflow, it is proved.
- **Exact reals** stand for the constellation, line noise, the receiver's fractional clock and the resampler.
- **Environment as input.** Reads arrive in arbitrary pieces, random draws, timing errors, slicer decisions and the
  outputs of analogue processing are arbitrary arguments, so each theorem covers all of them.

| file | part of the system |
|---|---|
| `FixedPoint`, `G722Tables`, `G722Quantizer`, `G722Band`, `G722Qmf`, `G722Codec`, `G722Prediction`, `G722Synthesis`, `G722FilterBank` | `sip_interface/g722.c` |
| `V22Scrambler`, `V22Constellation`, `V22DataPath`, `V22Handshake`, `V22Timing`, `V22Modem`, `V22Training`, `V22ScrambledOnes`, `V22Call` | `modem_v22bis/v22bis_tx.c`, `v22bis_rx.c` |
| `ByteBits`, `FskFramer`, `FskRoundTrip`, `FskTolerance`, `FskErrors` | `modem_fsk/fsk.c` |
| `LineRelay`, `LineResampler` | `line_sim/channel.c`, `resample.c`, `line_sim.c` |
| `V22EndToEnd`, `V22DataPhase` | the V.22bis chain from data socket to data socket, `modem_v22bis/` |
| `StreamHeader`, `CallBridge`, `BitPipe` | `sip_interface/call.c`, `modem_fsk/modem_fsk.c`, `modem_v22bis/modem_v22bis.c` |
| `Sequences` | associativity of concatenation, used throughout |

## What the proofs lead up to

- **A V.22bis call is set up** (`V22Call.CallIsSetUp`): two modems from power-up, on a line that turns and disturbs every
  symbol tolerably, are both in data after 1278 symbol times, at 2400 bit/s exactly if both can do it; and from then on
  the bytes of either data socket arrive at the other (`V22DataPhase.CallCarriesBytes`).
- **The handshake is safe** in every run with any events (`V22Handshake.SafeThroughout`), and its two ways to go wrong are
  known exactly (`MismatchCreatedExactly`, `V22Timing.SettledThroughoutExactly`).
- **G.722 ends stay in lockstep** for every PCM sequence (`G722Codec.Lockstep`), and both bands of the decoder are as near
  to the encoder's as their quantisers, exactly unless overloaded (`DecoderTracksEncoder`, `DecoderTracksUpperBand`,
  `PredictorsTrackInput`). The filter banks around them are convolutions of the whole signal
  (`AnalysisIsConvolution`, `G722Synthesis.SynthesisIsConvolution`) and together a delay of 22 samples
  (`G722FilterBank.FilterBanksAreDelay`).
- **FSK carries every byte if and only if the two bit clocks fit** (`FskTolerance.RoundTripExactly`), and reports of any
  other line exactly what the cells it samples say (`FskErrors.VerdictIs`).
- **The relay loses nothing** (`LineRelay.RelayConserves`, `Relay`), and slips as asked exactly while its balance has room
  (`HonouredExactly`); **the bridge and the bit pipe** keep every byte in order (`CallBridge.StreamConserved`,
  `BitPipe.PipeConserves`), and headers survive any chunking (`StreamHeader.HeaderRoundTrip`).

## Where the code does not do what one would expect

Each of these is proved, and where the expected behaviour can fail, so is the condition under which it holds.

- **Quantiser overload (G.722).** The reconstruction error is within one decision cell exactly when the difference
  reaches no further than one outermost cell beyond the outermost level (`G722Quantizer.ErrorBoundExactly`, and end to
  end, for the sample before the limiter, `G722Codec.DecoderTracksEncoder`); four full-scale samples from reset break it (`G722Codec.OverloadBreaksTheBound`).
- **2400 bit/s with two-bit decisions (V.22bis).** "Negotiated 2400 implies 16-way decisions" fails on exactly one kind
  of step, an S1 segment recognised on the baud that gives up the search (`V22Handshake.MismatchCreatedExactly`), and
  that step is reachable from power-up (`MismatchIsReachable`).
- **Carrier loss.** While the carrier is held the rate is always settled before the transmitter goes on
  (`V22Timing.RateSettledInTime`). Without that, a run stays settled if and only if no reset hits a transmitter that has
  gone on and no timed segment ends during an open search (`SettledThroughoutExactly`); a run from power-up in which one
  carrier loss breaks it is given (`UnsettledIsReachable`).
- **Byte alignment (V.22bis).** There is no framing on the bit pipe: bytes arrive as sent exactly if the idle stretch
  before them is a multiple of eight bits (`BitPipe.AlignedExactly`, `V22EndToEnd.UnfilledByteLost`).
- **Clock tolerance (FSK).** The round trip holds for all bytes, arrival times and start residues if and only if the two
  bit-clock increments fit: at the receiver's rollovers the start, data and parity samples fall into their own cells and
  the stop samples into any stop cell. Any other pair loses one of at most two bytes after some start residue
  (`FskTolerance.RoundTripExactly`, `Loses`). At 300 baud 8N1 the receivers that fit are those of 287 to 316 baud
  (`AtThreeHundred`).
- **Torn samples (SIP bridge).** In a PCMA or G.722 call a 20 ms tick that finds an odd number of staged bytes, fewer
  than a frame, sends half a sample padded with an idle byte and shifts all later samples by one byte. No sample is torn
  exactly when this never happens (`CallBridge.WholeExactly`, `OddRemainderTears`). A clear-mode stream is octets.
- **Raw streams lose their head.** A stream without the header's magic is announced as raw audio, but its first
  twelve bytes are not given back (`StreamHeader.RawStreamLosesItsHead`).
- The comment at `modem_v22bis/v22bis_rx.c:306` speaks of 32 ones; the code wants nine bauds of four. The model follows
  the code. So it does for the header, which declares 16000 Hz for a G.722 call although the top-level README says that
  the bridge always emits 8000 Hz.

## Model

| member | source | states |
|---|---|---|
| FixedPoint.SaturationIsNearest | sip_interface/g722.c:10-14 | saturation returns the 16-bit value nearest to the exact result, and no other value is as near |
| G722Tables.CodeDecodes | sip_interface/g722.c:49-73 | the decoder's level and sign tables undo the encoder's code table for every cell and sign |
| G722Tables.Ila | sip_interface/g722.c:85-104 | every antilogarithm entry lies in 1 to 4095, and in 7 to 4095 from index 64 on, the part the lower band uses |
| G722Tables.IlaGrows | sip_interface/g722.c:85-104 | the antilogarithm table never falls |
| G722Tables.IlaDoubles | sip_interface/g722.c:85-104 | 32 entries up, one more than the entry doubles, up to one unit: the table is an antilogarithm |
| G722Quantizer.CellFrom | sip_interface/g722.c:111-117 | the linear search ends in the cell whose thresholds bracket the magnitude |
| G722Quantizer.Quantl | sip_interface/g722.c:108-119 | the search loop over the threshold table yields the code of the bracketing cell with the sign of the difference |
| G722Quantizer.QuantLow | sip_interface/g722.c:108-119 | codes 0 to 3, which are reserved, are never chosen |
| G722Quantizer.CellBounds | sip_interface/g722.c:108-119 | the chosen cell contains the magnitude, one's complement for negative differences |
| G722Quantizer.ThresholdIsExact | sip_interface/g722.c:112-116 | within the step range no threshold saturates: it is the floor of the exact product |
| G722Quantizer.DecodedLevel | sip_interface/g722.c:136-140 | the six-bit inverse quantiser makes of a cell's code that cell's level, scaled and signed, without saturation |
| G722Quantizer.ReconstructionInCell | sip_interface/g722.c:108-140 | the reconstructed difference lies in the cell the encoder chose, up to one unit of floor rounding on the negative side |
| G722Quantizer.ErrorBoundExactly | sip_interface/g722.c:108-140 | for every 16-bit difference the error bound holds if and only if the difference is at most one outermost cell beyond the outermost level |
| G722Quantizer.SaturationIsOutOfReach | sip_interface/g722.c:287-288 | a difference that was changed by saturated subtraction is never in the reach of the error bound |
| G722Quantizer.InReachUnlessOverload | sip_interface/g722.c:108-140 | every difference short of the outermost threshold is in reach |
| G722Quantizer.ReconstructionError | sip_interface/g722.c:108-140 | so without overload the quantisation error is at most the width of the chosen cell |
| G722Quantizer.SaturationIsOverload | sip_interface/g722.c:287-288 | and a difference changed by saturated subtraction counts as overload |
| G722Quantizer.FeedbackLevel | sip_interface/g722.c:130-135 | what both predictors make of a cell's code is the level of its group of four cells, scaled, with the sign of the difference |
| G722Quantizer.CoarseLevelInside | sip_interface/g722.c:44-61 | the predictors' level table lies inside the thresholds of those groups |
| G722Quantizer.FeedbackInCell | sip_interface/g722.c:108-135 | the predictors' feedback has the sign of the difference and lies in the group of cells that the encoder chose, zero for the two smallest cells |
| G722Quantizer.FeedbackError | sip_interface/g722.c:108-135 | without overload it is off by at most the width of the group |
| G722Quantizer.UpperCode | sip_interface/g722.c:121-146 | the two-bit code carries sign and side of the single threshold through the decoder's tables |
| G722Quantizer.UpperReconstruction | sip_interface/g722.c:121-146 | the upper-band reconstruction has the sign of the difference and lies on the side of the threshold the encoder chose |
| G722Quantizer.OuterLevelNear | sip_interface/g722.c:121-146 | the outer level of the upper band lies between its threshold and twice that |
| G722Quantizer.UpperErrorExactly | sip_interface/g722.c:121-146 | the error of the upper quantiser stays within the threshold if and only if the difference reaches no further than the threshold beyond the outer level |
| G722Quantizer.UpperSaturation | sip_interface/g722.c:297-298 | a difference changed by saturated subtraction is out of that reach |
| G722Quantizer.ScaleLow | sip_interface/g722.c:149-164 | for every adapted logarithm the lower step lies in 32 to 16384 and the table index is in range |
| G722Quantizer.ScaleHigh | sip_interface/g722.c:155-168 | the same for the upper step, 8 to 16384 |
| G722Quantizer.LogScaleLaw | sip_interface/g722.c:149-160 | the logarithm leaks by one part in 128 and moves by the code's table entry, limited at both ends; no intermediate saturates |
| G722Quantizer.StepFollowsDifference | sip_interface/g722.c:149-154 | a larger difference never gives a smaller next step, and only the six smallest cells let it shrink |
| G722Quantizer.UpperStepFollows | sip_interface/g722.c:155-160 | differences beyond the upper threshold enlarge the upper logarithm by 798, others take 214 from it |
| G722Quantizer.StepDoubles | sip_interface/g722.c:161-168 | 2048 units of the logarithm double the step in both bands, up to one unit of rounding |
| G722Quantizer.StepGrows | sip_interface/g722.c:161-168 | a larger logarithm never gives a smaller step |
| G722Band.ZeroUpdateIsExact | sip_interface/g722.c:184-193 | sign-correlation law of the zero section, for all 16-bit coefficients: no update saturates, because the leak always leaves room for the step |
| G722Band.FirstPoleUpdateExact | sip_interface/g722.c:207-218 | sign-correlation law of the first pole coefficient: leak of one part in 256, step 192 along adjacent signs, limited by the second coefficient |
| G722Band.SecondPoleUpdateExact | sip_interface/g722.c:194-206 | the law of the second: leak of one part in 128, step 128 along signs two apart, opposed by the first coefficient, with the only possible saturation named |
| G722Band.PolesStayInside | sip_interface/g722.c:207-218 | the first pole coefficient ends within 15360 minus the second, whatever it was before |
| G722Band.PredictKeepsInt16 | sip_interface/g722.c:221-228 | one predictor update keeps every field in 16 bits and both pole coefficients in the stability triangle |
| G722Band.ResetIsAdapted | sip_interface/g722.c:264-277 | the reset bands satisfy the predictor invariant, step sizes included |
| G722Band.StepsKeepAdapted | sip_interface/g722.c:289-304 | any code, reserved ones included, keeps both bands in the invariant: 16-bit fields, stable poles, step equal to the scale function of its logarithm |
| G722Band.PolesInsideUnitCircle | sip_interface/g722.c:194-218 | under the invariant every real or complex pole of the predictor lies strictly inside the unit circle |
| G722Band.Band.UpZeroInPlace | sip_interface/g722.c:184-193 | the downward loop that updates coefficients and ages differences at once uses old differences for all six updates |
| G722Band.Band.UpPol2InPlace | sip_interface/g722.c:194-206 | the in-place second pole update changes only that coefficient and leaves it within 12288 of zero |
| G722Band.Band.UpPol1InPlace | sip_interface/g722.c:207-218 | the first pole update sees the partial signal before ageing it |
| G722Band.Band.FilterZeros | sip_interface/g722.c:172-177 | the loop sums the six taps from the oldest to the newest with saturation at each step |
| G722Band.Band.FilterPoles | sip_interface/g722.c:178-183 | the pole section ages the reconstructed signal first and filters what it then holds |
| G722Band.Band.PredictInPlace | sip_interface/g722.c:221-228 | the five in-place updates in their order amount to the predictor update on values |
| G722Prediction.LinesMoveOn | sip_interface/g722.c:184-228 | the difference, the partial and the whole reconstruction enter the three delay lines, whose other entries age by one |
| G722Prediction.ZeroSectionIsSum | sip_interface/g722.c:172-177 | the zero section is the exact six-tap sum over the differences whenever no partial sum saturates |
| G722Prediction.PoleSectionIsSum | sip_interface/g722.c:178-183 | the pole section is the exact two-tap sum over the reconstructed samples |
| G722Prediction.LinesRemember | sip_interface/g722.c:184-228 | over a whole run the delay lines hold the newest differences, samples and partial samples of everything decoded |
| G722Prediction.PredictionIsFilter | sip_interface/g722.c:172-228 | after any octets each band predicts six taps over the last six differences plus two over the last two reconstructed samples of the run, unless something saturates |
| G722Prediction.QuietIsUnsaturated | sip_interface/g722.c:172-183 | nothing saturates while the values in the lines add up to less than 16384, whatever the coefficients |
| G722Band.Band.FeedLow | sip_interface/g722.c:289-294 | encoder and decoder do the same with a lower-band code: feedback with the sign and level that `FeedbackInCell` gives, new step, predictor update |
| G722Band.Band.FeedHigh | sip_interface/g722.c:299-304 | the same for the upper band |
| G722Qmf.PhaseBound | sip_interface/g722.c:235-239 | on 16-bit histories every partial sum of both accumulators stays below 424804353 in magnitude, so none saturates |
| G722Qmf.PhasesMakeFilters | sip_interface/g722.c:235-242 | sum and difference of the two phases are the 24-tap prototype and its mirror image |
| G722Qmf.Accumulate | sip_interface/g722.c:235-239 | the saturating loop computes both phases exactly |
| G722Qmf.MoveOn | sip_interface/g722.c:240-240 | the downward copy ages the delay line by two places |
| G722Qmf.QmfAnalysis | sip_interface/g722.c:232-245 | the sub-bands are the exact low-pass and mirror FIR of the loaded line, scaled and limited |
| G722Qmf.QmfSynthesis | sip_interface/g722.c:247-260 | sum and difference of limited samples never saturate, and each output is one exact phase, scaled and saturated |
| G722Codec.EncodeInBlocks | sip_interface/g722.c:279-309 | encoding block by block equals one call on the concatenation for every even first block |
| G722Codec.DecodeInBlocks | sip_interface/g722.c:311-343 | the same for decoding in octet blocks of any size |
| G722Codec.LowStepIgnoresLowBits | sip_interface/g722.c:130-135 | the lower predictor cannot see the two low bits of its code |
| G722Codec.LockstepPair | sip_interface/g722.c:286-335 | equal bands stay equal after one octet, even with its two low bits replaced |
| G722Codec.Lockstep | sip_interface/g722.c:279-343 | for every PCM sequence the decoder, which sees octets only, ends with every band field equal to the encoder's, even if the line replaces the two low bits of each octet |
| G722Codec.LockstepThroughout | sip_interface/g722.c:279-343 | the equality holds after every single octet, from any equal band states, such as the reset states |
| G722Codec.EmbeddedBits | sip_interface/g722.c:314-335 | streams that differ only in the two low bits drive two decoders through the same band states |
| G722Codec.ReservedCodesUnused | sip_interface/g722.c:108-119 | no octet of any encoding carries lower-band codes 0 to 3 |
| G722Codec.EncodeKeepsStable | sip_interface/g722.c:279-309 | every PCM sequence leaves the encoder in the predictor invariant |
| G722Codec.DecodeKeepsStable | sip_interface/g722.c:311-343 | every octet sequence, errors and reserved codes included, leaves the decoder in the predictor invariant |
| G722Codec.StableFromReset | sip_interface/g722.c:264-343 | so from reset on neither side ever leaves the invariant |
| G722Codec.SmallCodesRestoreStep | sip_interface/g722.c:149-164 | whatever came before, at most 615 small lower-band codes bring the decoder's lower step back to its minimum |
| G722Codec.ReconstructedExactly | sip_interface/g722.c:287-320 | for one octet the decoder's sample before the limiter is within a cell width of the encoder's if and only if the difference is in reach |
| G722Codec.DecoderTracksEncoder | sip_interface/g722.c:284-320 | the same end to end, at every pair of every PCM sequence and whatever came before, by lockstep; no overload is enough, and the limited sample is no further away |
| G722Codec.OverloadBreaksTheBound | sip_interface/g722.c:279-343 | on four PCM samples from reset the decoder is off by 33 where the chosen cell is 6 wide |
| G722Codec.CodeOfPair | sip_interface/g722.c:287-306 | octet k of a whole encoding carries the code of difference k |
| G722Codec.StepsAfterPair | sip_interface/g722.c:287-301 | with every pair the lower logarithm moves by the entry of the group of cells that the difference lies in, and the upper one up or down by the side of its threshold |
| G722Codec.PredictorsTrackInput | sip_interface/g722.c:286-294 | at every pair of every PCM sequence, without overload, the newest reconstructed sample in the lower band of both ends is within the width of the coarse cell of the sub-band sample |
| G722Codec.ReconstructedHighExactly | sip_interface/g722.c:297-330 | for one octet the upper sample before the limiter is within the upper threshold of the encoder's if and only if the difference is in reach |
| G722Codec.HighOutputOfPair | sip_interface/g722.c:297-330 | octet k of a whole encoding carries the upper code of the upper sub-band less its prediction, and a decoder in step makes of it what the encoder's band does |
| G722Codec.DecoderTracksUpperBand | sip_interface/g722.c:284-330 | the upper bound holds end to end at every pair if and only if the difference is in reach, and then for the limited sample, too |
| G722Codec.AnalysisIsConvolution | sip_interface/g722.c:232-245 | from reset both sub-bands are the exact convolution of the entire signal with the prototype and its mirror, at every second sample |
| G722Synthesis.SynthesisIsConvolution | sip_interface/g722.c:247-260 | from reset, for every octet sequence, output 2k is the convolution of the even taps with all lower minus upper sub-band samples up to octet k, and output 2k+1 that of the odd taps with lower plus upper, scaled and saturated; the upper sample is the limited sum of prediction and signed level |
| G722FilterBank.BranchesInSeries | sip_interface/g722.c:235-257 | one polyphase branch after the other is a filter of 23 taps |
| G722FilterBank.GainsAre | sip_interface/g722.c:38-42 | those taps, in both orders of the branches: the middle one is 67118040, the others add up to 152952 |
| G722FilterBank.FilterBanksAreDelay | sip_interface/g722.c:232-260 | analysis and synthesis together delay every signal by 22 samples, up to a 400th of its peak and 8 units, for every peak at which no sub-band limiter can act |
| G722FilterBank.SubbandsOfEncoder | sip_interface/g722.c:232-245 | the sub-bands in that statement are those the encoder computes |
| G722FilterBank.OutputOfDecoder | sip_interface/g722.c:247-260 | and its output is what a decoder with these sub-bands delivers |
| G722Codec.Codec.Encode | sip_interface/g722.c:279-309 | the encoder object's loop produces the run on values and drops a last odd sample |
| G722Codec.Codec.EncodeNext | sip_interface/g722.c:284-306 | in-place work of one pair: both bands, the delay line and the octet |
| G722Codec.Codec.DecodeNext | sip_interface/g722.c:315-340 | in-place work of one octet, both samples in the order that `SynthesisIsConvolution` gives |
| G722Codec.Codec.Decode | sip_interface/g722.c:311-343 | the decoder object's loop produces the run on values, two samples for each octet |
| V22Scrambler.InverseBit | modem_v22bis/v22bis_rx.c:45-54 | from states that agree on the tapped bits and the counter, one line bit is descrambled to its source bit, guard included |
| V22Scrambler.DescrambleUndoesScramble | modem_v22bis/v22bis_tx.c:64-75 | the same for every bit string and every tap pair, and agreement is kept |
| V22Scrambler.SelfSynchronises | modem_v22bis/v22bis_rx.c:45-54 | from any unequal registers and counters, after more line bits than the longer tap with a zero among them, all following source bits are recovered |
| V22Scrambler.CountsKept | modem_v22bis/v22bis_tx.c:66-73 | the newest register bits are ones, as many as the counter says, and the counter never passes 64, on both sides |
| V22Scrambler.GuardInverts | modem_v22bis/v22bis_tx.c:66-71 | at a guard instant the taps cancel and the line carries the inverted source bit |
| V22Scrambler.ScramblesByPolynomial | modem_v22bis/v22bis_tx.c:64-75 | every line bit is the source bit plus the two line bits as far back as the taps say, inverted at a guard instant |
| V22Scrambler.LongRunNeedsZeroAtGuard | modem_v22bis/v22bis_tx.c:64-75 | line ones that outlast the counter need a source zero exactly at the guard instant |
| V22Scrambler.IdleRunBound | modem_v22bis/v22bis_tx.c:77-82 | scrambled idle never has 65 line ones in a row, anywhere in any run |
| V22Scrambler.IdleRunBoundFromStart | modem_v22bis/v22bis_tx.c:64-82 | the same from power-up on, whatever was sent before the idle stretch |
| V22Constellation.RotationMovesQuadrant | modem_v22bis/v22bis_tx.c:28-36 | right-angle turns of the constellation only move the quadrant part of the index |
| V22Constellation.InnerBitsOnGrid | modem_v22bis/v22bis_tx.c:28-36 | the inner bits place a point of each quadrant on the odd grid, with squared radii 2, 10, 10 and 18 |
| V22Constellation.Slice | modem_v22bis/v22bis_rx.c:60-81 | the search loops over 16 or 4 points return the specified nearest candidate |
| V22Constellation.SliceFromFindsNearest | modem_v22bis/v22bis_rx.c:60-81 | a candidate strictly nearer than all others is found from any point of the search |
| V22Constellation.SliceIsFirstNearest | modem_v22bis/v22bis_rx.c:60-81 | for every input the slicer takes the nearest candidate, the first of several as near, and point 0 if none is in sight |
| V22Constellation.SliceRecovers | modem_v22bis/v22bis_rx.c:60-81 | any right-angle phase error and any noise inside the decision region (each axis below 1, or squared distance below 5) give the turned index |
| V22DataPath.PhaseStepUndoesItself | modem_v22bis/v22bis_tx.c:24-26 | the differential table is its own inverse |
| V22DataPath.SymbolOnTheLine | modem_v22bis/v22bis_tx.c:24-36 | on the line the dibits 00, 01, 10 and 11 turn the signal by 90, 0, 180 and 270 degrees, and the other two bits pick the point of the quadrant |
| V22DataPath.SymbolRoundTrip | modem_v22bis/v22bis_rx.c:169-184 | a receiver that holds the right reference quadrant reads back the line bits of a symbol |
| V22DataPath.LineBitsRecovered | modem_v22bis/v22bis_tx.c:158-170 | differential coding cancels any constant right-angle error over whole strings |
| V22DataPath.SendTakenApart | modem_v22bis/v22bis_tx.c:158-170 | sending symbol by symbol is scrambling the string and then mapping it |
| V22DataPath.ReceiveTakenApart | modem_v22bis/v22bis_rx.c:169-184 | receiving is demapping the turned indices and then descrambling; tolerable noise has no say |
| V22DataPath.BitsGetThrough | modem_v22bis/v22bis_rx.c:60-184 | end to end at 1200 and 2400 bit/s the received bits are the source bits, for every string, tap pair, right-angle error and tolerable noise, given one reference symbol and synchronism |
| V22DataPath.OneSymbolLost | modem_v22bis/v22bis_rx.c:169-184 | a wrong reference costs the bits of one symbol only |
| V22DataPath.ReceiverFindsItself | modem_v22bis/v22bis_rx.c:45-184 | from any receiver state at all everything after one symbol and a lead-in with a line zero is delivered without error |
| V22Handshake.TapsMatch | modem_v22bis/v22bis_tx.c:199-211 | for each direction the two ends agree on the polynomial, with and without compatibility |
| V22Handshake.InitIsSafe | modem_v22bis/v22bis_tx.c:179-233 | power-up satisfies the safety invariant |
| V22Handshake.BaudKeepsSafe | modem_v22bis/v22bis_rx.c:191-325 | every decided symbol in every training stage keeps it |
| V22Handshake.SymbolKeepsSafe | modem_v22bis/v22bis_tx.c:87-175 | every transmitted symbol keeps it |
| V22Handshake.StepKeepsSafe | modem_v22bis/v22bis_rx.c:329-396 | so do carrier loss, a new carrier and a restart at any time |
| V22Handshake.SafeThroughout | modem_v22bis/v22bis_rx.c:191-396 | the invariant holds in every state of every run; role and maximum rate never change, 2400 only if allowed, 16-way only at 2400, data only with a rate, no U11 from the caller, no unscrambled stages in the answerer |
| V22Handshake.DeliversDataOnly | modem_v22bis/v22bis_rx.c:169-184 | in no run does training hand a bit to the data side; data comes with the carrier up, at a negotiated rate, two bits to the baud or, at 2400 bit/s only, four |
| V22Handshake.MismatchCreatedExactly | modem_v22bis/v22bis_rx.c:255-279 | a safe step leads into 2400 without 16-way decisions if and only if S1 is seen to end on the baud that gives up the search |
| V22Handshake.MismatchHasOrigin | modem_v22bis/v22bis_rx.c:255-279 | any such state in any run has that baud earlier in the run with no new carrier since |
| V22Handshake.MismatchIsReachable | modem_v22bis/v22bis_rx.c:255-279 | an explicit run from power-up reaches it, one symbol sent for every symbol received |
| V22Training.WaitEndsExactly | modem_v22bis/v22bis_rx.c:302-312 | over any run of bauds the wait for 2400 bit/s data ends if and only if nine bauds in a row decode to four ones each, with the bits given by demapping and descrambling the whole run |
| V22Training.NineSymbolsOfOnes | modem_v22bis/v22bis_rx.c:302-312 | nine symbols of scrambled ones put a synchronised receiver into data, under any right-angle turn |
| V22Training.S1OnTheLine | modem_v22bis/v22bis_tx.c:108-122 | the S1 segment is read as alternating 00 and 11 from its first symbol to its last, under any right-angle turn |
| V22Training.S1Leaves | modem_v22bis/v22bis_tx.c:113-121 | after 60 symbols a caller goes on to scrambled ones and an answerer to the timed segment |
| V22Training.U11OnTheLine | modem_v22bis/v22bis_tx.c:103-106 | unscrambled ones are read as steady 11 |
| V22Training.OnesOnTheLine | modem_v22bis/v22bis_tx.c:124-148 | the segments S11, TimedS11 and S1111 are the scrambled, mapped ones of the data path |
| V22Training.OnesDecoded | modem_v22bis/v22bis_tx.c:124-148 | a synchronised receiver decodes nothing but ones from them |
| V22Training.AlternationCounted | modem_v22bis/v22bis_rx.c:249-292 | a searching receiver counts an alternation baud by baud, and its search does not end in the middle of it |
| V22Training.S1Negotiates | modem_v22bis/v22bis_rx.c:249-292 | 16 alternating dibits or more and one that breaks the alternation negotiate 2400 bit/s where it is allowed |
| V22Training.S1Heard | modem_v22bis/v22bis_rx.c:249-292 | the S1 segment of one modem is counted to 59 or more at the other, and the first baud after it that is not 00 negotiates 2400 bit/s |
| V22ScrambledOnes.FreshDibit | modem_v22bis/v22bis_tx.c:64-82 | from a cleared register scrambled ones start as steady 11, and the first other dibit, where the shorter tap is reached, is 00 |
| V22ScrambledOnes.NeverS1 | modem_v22bis/v22bis_tx.c:64-82 | scrambled ones are never taken for S1: no 15 of their dibits alternate between 00 and 11, whatever the register held before |
| V22Call.AcquiringBaud | modem_v22bis/v22bis_rx.c:202-213 | acquisition takes 40 bauds, and then the rate is 1200 bit/s and the stage that of the side |
| V22Call.UnscrambledBaud | modem_v22bis/v22bis_rx.c:215-233 | unscrambled ones are answered after 366 bauds if steady for the last 273, by S1 or by scrambled ones |
| V22Call.SustainedBaud | modem_v22bis/v22bis_rx.c:235-247 | the first dibit that breaks them starts the timed segment and the search |
| V22Call.GivesUpBaud | modem_v22bis/v22bis_rx.c:249-279 | without S1 the search ends after 162 bauds, in data or in the answerer's wait |
| V22Call.NegotiatedBaud | modem_v22bis/v22bis_rx.c:280-292 | with 2400 bit/s negotiated 16-way decisions begin at baud 330 in a caller and 270 in an answerer |
| V22Call.SustainingBaud | modem_v22bis/v22bis_rx.c:294-300 | the answerer's wait at 1200 bit/s ends after 622 bauds in all |
| V22Call.CallIsSetUp | modem_v22bis/v22bis_rx.c:191-325 | two modems from power-up with any maximum rates, any constant right-angle turns, tolerable noise and sources are both in data after 1278 symbol times and stay there, at 2400 bit/s if both can and else at 1200 |
| V22Timing.TickKeepsRunning | modem_v22bis/v22bis_rx.c:141-159 | the clamped timing loop keeps the half period within 0.3 of nominal and the next instant at most two samples back |
| V22Timing.ReceiverClock.Sample | modem_v22bis/v22bis_rx.c:443-459 | at most one half-symbol instant falls due per sample, a due one is always emitted and never skipped, and both its interpolation points are in the four-sample history |
| V22Timing.ReceiverClock.Timing | modem_v22bis/v22bis_rx.c:141-159 | the in-place nudge and clamps |
| V22Timing.NudgeFollowsError | modem_v22bis/v22bis_rx.c:141-159 | a positive error delays the next instant and lengthens the period, a negative one does the reverse, in proportion up to the limits |
| V22Timing.InstantsInTime | modem_v22bis/v22bis_rx.c:443-459 | over any run of samples with any errors every half-symbol instant takes a half-symbol up to the limits of the loop, every second one completes a baud, and the next one keeps up with the samples |
| V22Timing.SixHundredBaud | modem_v22bis/v22bis_rx.c:443-459 | without timing errors the receiver makes three bauds of 40 samples, to within 47 fortieths of a baud over any run |
| V22Timing.Advance | modem_v22bis/v22bis_tx.c:240-242 | the symbol clock conserves time: three fortieths of a symbol per sample, no residue lost |
| V22Timing.TimedSegmentHasRoom | modem_v22bis/v22bis_tx.c:124-131 | while the receiver still searches for S1 the timed segment has symbols left |
| V22Timing.BaudKeepsStages | modem_v22bis/v22bis_rx.c:201-312 | how one decided symbol may move the two stages relative to each other |
| V22Timing.StepKeepsCoupled | modem_v22bis/v22bis_rx.c:382-462 | every received or transmitted sample keeps transmitter time and receiver time in step |
| V22Timing.RateSettledInTime | modem_v22bis/v22bis_rx.c:239-279 | while the carrier is held, in every run from power-up and every block interleaving, a transmitter in 2400 training or data has its receiver's search behind it |
| V22Timing.SettledRateStays | modem_v22bis/v22bis_rx.c:255-279 | after the search nothing but a new carrier or a restart changes the rate |
| V22Timing.UnsettledExactly | modem_v22bis/v22bis_rx.c:329-380 | a safe step leads to a transmitter in 2400 training or data in front of an open search if and only if a reset hits such a transmitter or the timed segment ends while the search is open |
| V22Timing.SettledThroughoutExactly | modem_v22bis/v22bis_rx.c:329-380 | a whole run stays settled if and only if no such step occurs in it |
| V22Timing.UnsettledHasOrigin | modem_v22bis/v22bis_rx.c:329-380 | every unsettled state of every run has such a step before it and has been unsettled ever since |
| V22Timing.CarrierLossUnsettles | modem_v22bis/v22bis_rx.c:357-396 | a carrier loss and a new carrier at the last timed symbol do it |
| V22Timing.UnsettledIsReachable | modem_v22bis/v22bis_rx.c:357-396 | an explicit run from power-up does it, one symbol sent for every symbol received |
| V22Modem.V22bis.constructor | modem_v22bis/v22bis_tx.c:179-233 | initial stages, rate and the tap selection by role and compatibility |
| V22Modem.V22bis.Scramble | modem_v22bis/v22bis_tx.c:64-75 | the in-place shift register implements the scrambler that the inverse theorems are about |
| V22Modem.V22bis.EmitSymbol | modem_v22bis/v22bis_tx.c:158-170 | first dibit turns the quadrant, second dibit picks the point, in that bit order |
| V22Modem.V22bis.Training | modem_v22bis/v22bis_tx.c:87-155 | one training symbol in place: what each stage sends is what `U11OnTheLine`, `S1OnTheLine` and `OnesOnTheLine` say, and its counters end as in `CallIsSetUp` |
| V22Modem.V22bis.GetSymbol | modem_v22bis/v22bis_tx.c:172-175 | source bits are used only when training is over |
| V22Modem.V22bis.Descramble | modem_v22bis/v22bis_rx.c:45-54 | the in-place descrambler, whose guard acts after the shift |
| V22Modem.V22bis.DecodeInPlace | modem_v22bis/v22bis_rx.c:169-184 | differential decoding and descrambling of two or four bits in order |
| V22Modem.V22bis.Baud | modem_v22bis/v22bis_rx.c:191-325 | one decided symbol in place: every stage ends as `WaitEndsExactly`, `S1Negotiates` and the stage laws of `V22Call` say, and bits are delivered in the data stage only |
| V22Modem.V22bis.SearchForS1 | modem_v22bis/v22bis_rx.c:249-292 | the S1 search with its two exits and the 2400 countdown |
| V22Modem.V22bis.AcquireReset | modem_v22bis/v22bis_rx.c:357-380 | a new carrier restarts acquisition and leaves the transmitter running |
| V22Modem.ShaperRing.Push | modem_v22bis/v22bis_tx.c:244-254 | the double-written ring always offers the last nine symbols as one contiguous stretch, oldest first |
| FskFramer.ComputeParityBit | modem_fsk/fsk.c:141-150 | the counting loop makes the number of ones even or odd as configured |
| FskFramer.BitTick | modem_fsk/fsk.c:69-74 | the Q16 bit clock loses no residue when it rolls over |
| FskFramer.Modulator.PullByte | modem_fsk/fsk.c:186-192 | the front byte is taken and the rest moves down unchanged |
| FskFramer.Modulator.Advance | modem_fsk/fsk.c:207-274 | one framer step in place, next frame included, equals the step on values |
| FskFramer.Modulator.Sample | modem_fsk/fsk.c:276-298 | the sample goes out with the level set before the clock advances |
| FskFramer.Demodulator.Sample | modem_fsk/fsk.c:394-461 | the receive framer in place equals the step on values |
| FskFramer.RxSample | modem_fsk/fsk.c:394-461 | every sample keeps bit and stop indices in range for the framing |
| FskRoundTrip.TxAdvances | modem_fsk/fsk.c:207-274 | cells of a frame are sent one after the other, and at the end the next byte's frame or idle follows |
| FskRoundTrip.RxAdvances | modem_fsk/fsk.c:403-461 | a receiver that sees the levels of a frame's cells collects exactly its data bits and accepts its parity and stop bits |
| FskRoundTrip.CellFitsExactly | modem_fsk/fsk.c:394-461 | the condition on two increments at one cell is exactly that no start residue makes the receiver's rollover for it see a cell of another kind, and a residue that does is named |
| FskRoundTrip.TolerantFits | modem_fsk/fsk.c:69-74 | an explicit bound on the drift up to the last rollover of a frame is enough for increments to fit |
| FskRoundTrip.EqualIncrementsTolerant | modem_fsk/fsk.c:69-74 | equal increments up to 16384 have no drift, meet the bound and fit, for every framing |
| FskRoundTrip.ProfilesTolerant | modem_fsk/fsk.c:170-170 | so do the increments of 75, 300 and 1200 baud |
| FskRoundTrip.SamplesTheRightCell | modem_fsk/fsk.c:394-461 | with increments that fit every rollover of the receiver's clock during a run sees the cell it is meant to sample, or another stop cell in place of one |
| FskErrors.VerdictIs | modem_fsk/fsk.c:394-461 | whatever is on the line, a receiver that starts a frame reports exactly the verdict on the levels at its rollovers: nothing if the start cell is mark, an error for a wrong parity or at the first stop cell that is space, and otherwise the data bits; and it is idle again |
| FskErrors.OneCellWrong | modem_fsk/fsk.c:413-461 | one cell of a frame read wrong is always detected if there is parity, and a wrong stop cell always; without parity a wrong data cell turns just that bit |
| FskRoundTrip.FrameGoesOn | modem_fsk/fsk.c:262-271 | the transmitter does not leave a frame before the receiver has taken its last sample of it |
| FskRoundTrip.LinkStep | modem_fsk/fsk.c:195-461 | every sample keeps the pair in step; reports plus pending grow by exactly the bytes pulled, so no error is ever reported |
| FskRoundTrip.RoundTrip | modem_fsk/fsk.c:195-461 | any framing, bytes, arrival times and start residue, and increments that fit: the receiver reports the sent bytes masked to the data bits, in order and without error |
| FskTolerance.RoundTripExactly | modem_fsk/fsk.c:195-461 | for every framing and pair of increments below a bit period: the round trip holds for all bytes, arrival times and start residues if and only if the increments fit |
| FskTolerance.Loses | modem_fsk/fsk.c:195-461 | increments that do not fit lose a byte: for a start residue and one or two bytes that are given, the transmitter sends everything and is idle again, and the first report, if any, is not the first byte |
| FskTolerance.LevelsOf | modem_fsk/fsk.c:195-298 | with nothing more arriving, every sample carries the level of its frame and cell in closed form, frames back to back and mark behind them |
| FskTolerance.Drains | modem_fsk/fsk.c:195-298 | after the time of its frames the transmitter is idle and has sent everything |
| FskTolerance.GetsTo | modem_fsk/fsk.c:394-461 | a receiver that sees the right levels up to a cell reaches the rollover for that cell in time, with nothing reported |
| FskTolerance.SpoiledForGood | modem_fsk/fsk.c:413-461 | a data bit taken in wrong is never made good: whatever follows on the line, the first report is not the byte |
| FskTolerance.NoByteInDip | modem_fsk/fsk.c:394-461 | a receiver that starts on a stretch of space in the mark never first reports a byte that begins with a one and ends with a zero |
| FskTolerance.LateByTwo | modem_fsk/fsk.c:69-74 | the first stop sample to come too late falls into the start or first data cell of the next frame |
| FskTolerance.FitsBetween | modem_fsk/fsk.c:69-74 | the receiver increments that fit a transmitter are an interval |
| FskTolerance.AtThreeHundred | modem_fsk/fsk.c:170-170 | over all receiver baud rates, a 300 baud 8N1 transmitter is fitted by exactly 287 to 316 |
| FskRoundTrip.PulledInOrder | modem_fsk/fsk.c:186-204 | the transmitter sends what arrived, in order |
| FskRoundTrip.DelayChangesNothing | modem_fsk/fsk.c:395-402 | any delay of the line leaves the reports as they are |
| FskRoundTrip.MarksRecover | modem_fsk/fsk.c:394-461 | from any receiver state enough mark leads back to idle with at most one report |
| FskRoundTrip.Recovers | modem_fsk/fsk.c:394-461 | eleven bit periods of mark suffice, and from then on, with increments that fit, every byte sent is received |
| LineResampler.PolyphaseIsZeroStuffing | line_sim/resample.c:57-63 | a polyphase branch is the full prototype convolved with the zero-stuffed signal, for every factor and time |
| LineResampler.SplitIntoBranches | line_sim/resample.c:61-63 | the prototype is dealt to the branches tap by tap |
| LineResampler.PushKeepsHolds | line_sim/resample.c:95-96 | a circular history holds the newest samples of the signal after every push |
| LineResampler.Resampler.Up | line_sim/resample.c:78-92 | every output equals the prototype on the zero-stuffed history at its own time |
| LineResampler.Resampler.Down | line_sim/resample.c:94-107 | an output appears after every factor-th input only, and equals the full-rate filter at that time |
| LineRelay.Fifo.Push | line_sim/channel.c:18-26 | the ring keeps order and, when full, the newest 512 samples |
| LineRelay.Fifo.Pop | line_sim/channel.c:28-36 | the oldest samples come out in order, as many as asked for and available |
| LineRelay.PopFillsUp | line_sim/line_sim.c:296-300 | on underflow a delivered block is what there is and zeros behind it |
| LineRelay.EmissionStaysBounded | line_sim/channel.c:257-278 | under any draws the balance stays within ten, equals emissions minus samples, and the last branch is dead |
| LineRelay.DrawHonoured | line_sim/channel.c:257-278 | a wanted duplicate is emitted twice and a wanted drop not at all while there is room; at a bound a draw further outward is turned round |
| LineRelay.HonouredExactly | line_sim/channel.c:257-278 | over any run every draw is honoured if and only if the balance asked for, started at the balance, stays within ten throughout |
| LineRelay.EmittedByCount | line_sim/channel.c:257-278 | what is emitted is every sample as often as its count says; with room that is the samples plus the wanted duplicates less the wanted drops, in number and in the balance |
| LineRelay.Channel.EmitWithSlip | line_sim/channel.c:257-278 | two pushes where a duplicate is wanted and none where a drop is, with the balance to match, turned round at a bound as in `DrawHonoured` |
| LineRelay.Channel.Process | line_sim/channel.c:282-342 | a block leaves the emissions of exactly one sample per input in the FIFO, in order |
| LineRelay.EmitAllConserves | line_sim/channel.c:257-278 | over any run the number emitted is the number processed plus the change of the balance |
| LineRelay.EmitAllSlips | line_sim/channel.c:257-278 | what is emitted is each processed sample zero to two times in order |
| LineRelay.RoundConserves | line_sim/line_sim.c:284-290 | in a round neither the overflow drop nor the underflow padding fires, and the FIFO is back at its cushion plus the balance |
| LineRelay.RelayConserves | line_sim/line_sim.c:278-294 | over any number of rounds and any draws the delivered samples followed by the FIFO are everything emitted, in order |
| LineRelay.PrimingCushions | line_sim/line_sim.c:266-276 | priming gives one block of cushion plus the balance when anything can slip, and none is needed otherwise |
| LineRelay.RelayRound | line_sim/line_sim.c:284-294 | both directions are processed and then both delivered, independently of each other |
| LineRelay.RelayRounds | line_sim/line_sim.c:278-294 | the loop in place delivers the rounds on values in both directions |
| LineRelay.Relay | line_sim/line_sim.c:266-294 | each peer receives one block of zeros and then exactly as many samples as the other sent, a prefix of what its channel emitted |
| StreamHeader.SendStreamHeader | sip_interface/call.c:476-491 | the header fields in network byte order followed by the payload |
| StreamHeader.PrefixFields | sip_interface/call.c:476-491 | magic, encoding, rate and length as a reader of big-endian fields finds them |
| StreamHeader.RejectedExactly | modem_v22bis/modem_v22bis.c:158-191 | of all twelve-byte prefixes exactly those are rejected that carry the magic and differ from the bridge's for a PCMA call in version, encoding, channels or rate; the flags do not matter |
| StreamHeader.SampleBytes | modem_fsk/modem_fsk.c:400-415 | samples are two's complement with the low byte first |
| StreamHeader.ReadsDoNotMatter | modem_fsk/modem_fsk.c:251-315 | header state, carried byte and samples do not depend on how the stream is cut into reads |
| StreamHeader.HeaderRoundTrip | modem_fsk/modem_fsk.c:251-315 | for every payload, PCM and chunking the reader strips exactly what was written and delivers the PCM of a PCMA call; other codecs are rejected with nothing delivered |
| StreamHeader.RequestLineKept | modem_fsk/modem_fsk.c:298-313 | for every payload and chunking the line kept for the log is the first of the payload that is not empty, cut after 127 bytes |
| StreamHeader.RawStreamLosesItsHead | modem_fsk/modem_fsk.c:255-265 | without the magic the samples delivered start after the twelve bytes inspected |
| StreamHeader.Reader.ConsumeHeader | modem_v22bis/modem_v22bis.c:158-207 | the resumable in-place reader takes from a read exactly the header bytes the byte-wise reader takes |
| StreamHeader.Reader.Read | modem_fsk/modem_fsk.c:387-423 | one read in place equals feeding its bytes; at most 640 bytes stage one output per sample and the guard drops none |
| CallBridge.Staging.Poll | sip_interface/call.c:583-603 | reading takes what fits and loses nothing |
| CallBridge.Staging.Tick | sip_interface/call.c:628-654 | a frame takes the oldest bytes and fills up with idle; afterwards the buffer has room, so the peer is polled again |
| CallBridge.StreamConserved | sip_interface/call.c:583-654 | over any arrivals and ticks the stream's bytes leave in order, each exactly once |
| CallBridge.DriveStaging | sip_interface/call.c:583-654 | the staging object driven through any arrivals and ticks sends and keeps exactly what the run on values says, of whatever prefix it read |
| CallBridge.WholeExactly | sip_interface/call.c:631-654 | in the two sample codecs no sample is torn if and only if every tick finds a whole frame or an even number of bytes; in clear mode, whose stream is octets, it only says where the padding goes |
| CallBridge.AudioIntact | sip_interface/call.c:631-654 | then the line carries exactly the stream's samples in order with idle samples between; clear mode has octets, not samples, and needs no condition for them |
| CallBridge.OddRemainderTears | sip_interface/call.c:631-654 | a concrete call in which a value neither sent nor idle goes out |
| CallBridge.FrameIsTwentyMs | sip_interface/call.c:628-654 | a frame is 20 ms at the codec's rate and fills a payload of 160 octets in every codec |
| CallBridge.EmptyFrame | sip_interface/call.c:628-654 | an empty buffer puts silence on the line in the sample codecs and octets of eight ones in clear mode |
| CallBridge.OneEncoding | sip_interface/call.c:641-648 | the octets of all ticks of a G.722 call are one encoding of everything sent |
| CallBridge.FarEndInStep | sip_interface/call.c:641-648 | a far end that decodes all payloads in order ends in the encoder's band state |
| BitPipe.Source.GetBit | modem_v22bis/modem_v22bis.c:83-94 | the next pending bit, least significant first, or an idle one exactly when nothing is pending |
| BitPipe.Source.Compact | modem_v22bis/modem_v22bis.c:286-292 | compaction changes no pending bit |
| BitPipe.Source.Poll | modem_v22bis/modem_v22bis.c:237-302 | polled only while the queue has room before compaction; what is read is appended to what is pending |
| BitPipe.Sink.PutBit | modem_v22bis/modem_v22bis.c:97-106 | bits are collected in order; only a byte that completes with the queue full is lost |
| BitPipe.Sink.Flush | modem_v22bis/modem_v22bis.c:305-310 | a partial write takes a prefix and keeps the rest |
| BitPipe.PipeConserves | modem_v22bis/modem_v22bis.c:83-94 | for any interleaving of arrivals and pulls the pulled bits without the idle ones are the peer's bytes in order |
| BitPipe.DriveSource | modem_v22bis/modem_v22bis.c:83-302 | the source object driven through any interleaving of reads, compactions and pulls behaves as the run; pulled bits without the idle ones and pending bits are the bytes read, in order |
| BitPipe.DriveSink | modem_v22bis/modem_v22bis.c:96-106 | the sink object fed bits while it has room holds them in order, and its queue is the assembly of everything fed |
| BitPipe.IdleBetweenBytes | modem_v22bis/modem_v22bis.c:85-86 | idle bits are ones and stand only between whole bytes |
| BitPipe.AssembledUndoesBits | modem_v22bis/modem_v22bis.c:97-106 | assembling the bits of any bytes gives the bytes |
| BitPipe.AlignedExactly | modem_v22bis/modem_v22bis.c:83-106 | bytes after an idle stretch arrive as sent, for all byte strings, if and only if its length is a multiple of eight |
| V22EndToEnd.BytesGetThrough | modem_v22bis/modem_v22bis.c:83-106 | bytes pass from data socket to data socket unchanged over a V.22bis line with a synchronised receiver and its sink at a byte boundary, for every byte string, rate, right-angle error and tolerable noise |
| V22EndToEnd.IdleThenBits | modem_v22bis/v22bis_rx.c:45-184 | from any state of the receiving modem all bits after 69 or more idle ones are received; the guard supplies the line zero that synchronisation needs |
| V22EndToEnd.IdleThenBytes | modem_v22bis/modem_v22bis.c:83-106 | and every byte sent arrives in place if the idle ones fill up the byte the sink was in the middle of; from a byte boundary nine idle bytes do |
| V22EndToEnd.UnfilledByteLost | modem_v22bis/modem_v22bis.c:83-106 | if they leave the sink inside a byte, a zero byte never arrives in place |
| V22DataPhase.OneTurn | modem_v22bis/v22bis_rx.c:316-321 | in the data phase sending a symbol leaves the receiver alone, taking a point leaves the transmitter alone, and the modem stays in the data phase at its rate |
| V22DataPhase.RunIsDataPath | modem_v22bis/v22bis_tx.c:158-175 | a modem in the data phase that sends and receives symbols in any interleaving sends and delivers exactly what the two data-path runs say, independently of each other |
| V22DataPhase.ModemToModem | modem_v22bis/modem_v22bis.c:83-106 | two such modems at one rate: behind 69 or more idle ones that fill up the sink's byte, every byte of the one's source arrives in place at the other, whatever else both do meanwhile |
| V22DataPhase.CallCarriesBytes | modem_v22bis/modem_v22bis.c:83-106 | after any call set-up from power-up, bytes behind 69 or more idle ones arrive in place at the far end's data socket, in both directions |

## Left out

- Sockets, select, threads, timers, logging and process set-up: reads, ticks and draws are arguments.
- SIP, SDP, digest authentication, MD5, registration and call set-up: text formatting and network behaviour.
- RTP headers, and the direction from RTP to TCP, whose writer drops the rest of a chunk when the socket is full.
- A-law: a finite table in both directions.
- Filters, nonlinearity, phase jitter and noise of the line simulator: a channel's processed samples are inputs of `LineRelay`.
- Filter design: the resampler's prototypes are parameters, and its doubles are exact reals.
- FSK tone generation and detection: the line is one level per sample, so the Goertzel window, its warm-up and the carrier hysteresis are absent.
- FSK break, synchronous mode, banner and lead-in.
- FSK bit clocks of 8000 baud and more, which no profile has: an increment of a whole bit period rolls over at every sample.
- V.22bis pulse shaping, carrier, gain control, equaliser and the value of the timing error: the slicer's input or decision and the timing error are arbitrary.
- Analogue lock: `V22Call.CallIsSetUp` has one symbol heard for every symbol sent, without line delay and with noise inside the decision regions; the loops that get there are not modelled.
- Liveness of a completely full V.22bis transmit queue, which is compacted only when the data socket is polled.
- The 32-bit scrambler register is a sequence of its bits, and counters that the code keeps in `int` are unbounded.
- Evaluation order: the two calls in one expression at `modem_v22bis/v22bis_tx.c:135` and `:160` have no defined order in C; the model takes the left one first, which is what the receiver at `modem_v22bis/v22bis_rx.c:173-174` expects.
- The V.22bis reader's passing on of samples in blocks: the reader is modelled with the FSK modem's staging buffer; header and sample assembly are the same in both.
- Payloads of 2^31 bytes and more: the writer's length is a C int, and the reader's cast of a longer one would be negative.
- Readers are modelled with the header expected; without `-H` they start as if it had been consumed.
