# scanning-microphone, modelled in Dafny

scanning-microphone drives a 3D printer's head across a grid while a microphone or an
oscilloscope records at each stop. This project models the logic of that program and proves
properties of it. The model covers:

- **Scanner** (`scanner.py`). The scan sequencer. The scanner checks that the printer is online
  when it connects. It walks a rectangular lattice, or a prism of lattices stacked in z. It moves
  the head by relative displacements, records at every lattice point and moves back at the end.
  Every move first asks the printer whether it is online and aborts the scan when it is not.
- **GCode program** (`gcode.py`). A G-code builder that accumulates `G1` move and `G4` pause lines.
  It tracks the last commanded point and joins the lines with line breaks.
- **G-code generator script** (`gcodetest.py`). The module-level `move`, `pause`, `initiateArc`,
  `stopSequence`, `testExtrudeSequence`, `testMoveSequence` and `move_grid` each emit text. They
  share the global `lastPoint` and extrusion length `E`.
- **Continuous-scan post-processing** (`processing/process_continuous_scan.py`). It reads one
  FFT capture per strip and reduces each record (row) of a capture to its maximum over a bin
  window. It decodes the strip's coordinates from the file name and sorts the strips. It then
  resamples every strip to the median strip length.
- **Oscilloscope benchmark** (`microphone/benchmark_microphone.py`). The benchmark queries the
  FFT ten times and marks corrupted reads with `-1` rows. A delay passes when the row means are
  nearly all distinct. The main loop halves the delay after a pass and doubles it after a failure.
- **Printer port discovery** (`printer/printer.py`). It globs the serial device patterns and
  filters out Bluetooth and FireFly ports. It uses the given serial, or else the first candidate.

### How the model is built

- **Values and state.** Pure computations are functions over datatypes. State that the source
  mutates is held in classes: `Scanning.Scanner` holds the issued-event trace and the number of
  `online()` queries. `GCode.GCodeProgram` holds `gcode` and `last_point`. `GCodeTest.Emitter`
  holds the script's globals `lastPoint` and `E`.
- **Scans.** A scan is specified by its *plan*: the list of moves and recordings the source would
  issue, a pure function of the scan's parameters. `Execute` runs a plan against an oracle
  `online: nat -> bool`, which gives the printer's answer to the n-th query. Each scan method is
  proved to append exactly what `Execute` issues. Lemmas about the plans give the move count,
  the recorded coordinates and the net displacement.
- **Inputs outside the model.** These are parameters: the device answers, `glob`,
  `pickle.load`, `float()` parsing, `np.interp` and `str()` of a number. `str()` of a number is a
  `Formatter`. Where line counts are proved, the formatter is assumed never to produce a line
  break (`Text.LineSafe`).
- **Python exceptions.** They are modelled as `Result` failures: `KeyError` for the missing
  `"WeldSpeed"` setting, `ZeroDivisionError`, a `None` operand, `ValueError` from `float()` or
  from unpacking, `RuntimeError('No Data Found')`, and an offline printer.

### Behaviour the model proves as written

- **Lattice scan.** `previous_coord` starts at `begin_coord`, while the scan points are offsets
  from 0. So with two or more points per axis, the head ends `begin` short of where it started;
  it returns exactly iff `begin` is the origin. With one point per axis, the final move
  overshoots by the whole distance.
- **Prism scan.** Layer k is tagged `k·dz/(resZ−1)` but the head stands at `k·dz/resZ`. Those
  agree only when `dz = 0`. With `resolution_z = 0`, the final move still moves the head by
  `−distance_z`.
- **`setupData` has no `"WeldSpeed"` key** in gcode.py, nor in gcodetest.py's initial
  `setupData`. A `speed="Weld"` move against those settings raises `KeyError`. In gcodetest.py
  only `printSegment`, which is not modelled, adds the key before its weld moves.
- **`str(GCodeProgram)`.** Joining with `"\n"` gives a string that splits back into the
  program's lines.

## Model

| member | source | states |
|---|---|---|
| Scanning.NetConcat | scanner.py:119-132 | the net displacement of two concatenated event sequences is the sum of their nets |
| Scanning.MoveCountConcat | scanner.py:119-132 | moves of a concatenation are the sum of the moves of the parts |
| Scanning.TagsConcat | scanner.py:68-69 | recorded coordinates of a concatenation are those of the first part followed by those of the second |
| Scanning.Sweep | scanner.py:63-70 | the lattice walk issues exactly two events (a move, then a recording) per scan point |
| Scanning.Offsets | scanner.py:57-60 | the lattice has res·res points |
| Scanning.ExecuteSnoc | scanner.py:119-126 | executing a plan one more event is one more step of the per-move online check |
| Scanning.ExecuteIssuesPrefix | scanner.py:119-126 | execution issues a prefix of the plan; on success all of it with one online query per move; on failure it stopped just before a move whose online query answered false |
| Scanning.ExecuteOnline | scanner.py:119-126 | with the printer online throughout, the whole plan is issued and online() is queried once per move |
| Scanning.ExecuteStopped | scanner.py:123-124 | once a prefix of a plan has failed, the rest of the plan issues nothing more (the RuntimeError ends the scan) |
| Scanning.SweepPrefix | scanner.py:64-70 | the walk over the first k points is a prefix of the walk over all points |
| Scanning.LayersPrefix | scanner.py:96-114 | the first k layers are a prefix of all layers |
| Scanning.SweepVisit | scanner.py:64-70 | visiting point i extends the walk over the first i points by that point's move and recording |
| Scanning.LatticePlanParts | scanner.py:57-73 | the lattice plan is the walk over the lattice followed by the return move |
| Scanning.PrismPlanParts | scanner.py:93-117 | the prism plan is the layers followed by the final z return |
| Scanning.LayerParts | scanner.py:96-114 | layer k is the walk at height z_k, the x/y return and the z step, each a prefix of the plan |
| Scanning.Scanner.constructor | scanner.py:23-26 | a new scanner holds its printer and has issued and queried nothing |
| Scanning.Scanner.Connect | scanner.py:23-33 | choosing a port fails as the Printer constructor does; otherwise the scanner exists iff the first online() query answers true; one query has been made and nothing issued |
| Scanning.Scanner.Online | scanner.py:123 | one online() query, answered by the oracle; nothing issued |
| Scanning.Scanner.Move | scanner.py:119-126 | one online() query; the move is issued iff it answered true |
| Scanning.Scanner.Record | scanner.py:68-69 | appends one recording tagged with the point's coordinates, with no query |
| Scanning.Scanner.Visit | scanner.py:65-70 | one visit keeps the trace equal to an execution prefix of the plan, or reports the plan's failed run |
| Scanning.Scanner.Issue | scanner.py:119-126 | one move keeps the trace equal to an execution prefix of the plan, or reports the plan's failed run |
| Scanning.Scanner.SweepPoints | scanner.py:64-70 | the loop issues the walk over all points, or stops where the plan's execution stops |
| Scanning.Scanner.ScanRectangularLattice | scanner.py:39-73 | a negative resolution is np.linspace's ValueError, before any query or move; otherwise the trace grows by exactly what executing the lattice plan issues, and the polls and the outcome are those of that execution |
| Scanning.Scanner.ScanLayer | scanner.py:102-114 | one layer issues its walk, x/y return and z step, or stops where the plan's execution stops |
| Scanning.Scanner.ScanLayers | scanner.py:96-117 | the layer loop and the final z return issue exactly what executing the prism plan issues; polls and success as in that execution |
| Scanning.Scanner.ScanRectangularPrism | scanner.py:75-117 | a negative resolution_z, or a negative resolution when there is at least one layer, is np.linspace's ValueError before any query or move; otherwise the trace grows by exactly what executing the prism plan issues, with polls and outcome as in that execution |
| Scanning.NoLayersPlan | scanner.py:96-117 | with resolution_z = 0 no lattice is built, whatever the resolution, and the plan is the single final z move |
| ScanProperties.Tagged | scanner.py:106 | one tag per point |
| ScanProperties.LayerTags | scanner.py:96-107 | one tag per point per layer |
| ScanProperties.SweepFront | scanner.py:64-70 | the walk over a non-empty list is the walk over all but the last point, then the last point's move and recording |
| ScanProperties.SweepMovesAndTags | scanner.py:64-70 | a walk moves once per point and records the points, in order, at the given height |
| ScanProperties.SweepNet | scanner.py:63-70 | a walk from `previous_coord` to the last point displaces the head by last − begin |
| ScanProperties.OffsetsLast | scanner.py:59-60 | the last lattice offset is the full distance, or 0 when there is one point per axis |
| ScanProperties.LatticeMovesAndTags | scanner.py:57-73 | a lattice scan makes res²+1 moves and records each lattice point once, x outer and y inner, at z = 0 |
| ScanProperties.LatticeNet | scanner.py:57-73 | the lattice scan's net displacement is −begin for res ≥ 2, −begin − dist for res = 1 and −dist for res = 0 |
| ScanProperties.LatticeReturns | scanner.py:63-73 | for res ≥ 2 the head returns to its start iff begin is the origin |
| ScanProperties.LatticeOnline | scanner.py:63-73 | with the printer online, a lattice scan completes with res²+1 queries |
| ScanProperties.ExampleScan | scanner.py:144 | the script's scan (0,0)→(10,10) at 11 visits the 121 integer points, makes 122 moves and returns to the start |
| ScanProperties.LayersFront | scanner.py:96-114 | layers over a non-empty list are the layers over all but the last height, then the last layer |
| ScanProperties.ScaleSucc | scanner.py:96-114 | k+1 layer shifts are k shifts plus one |
| ScanProperties.LayerTail | scanner.py:102-114 | one layer makes \|pts\|+2 moves, records its points at its height and displaces the head by the layer shift |
| ScanProperties.LayersMoves | scanner.py:96-114 | the layers make \|zs\|·(\|pts\|+2) moves |
| ScanProperties.LayersTags | scanner.py:96-107 | the layers record every point on every layer, tagged with the layer's linspace height |
| ScanProperties.LayersNet | scanner.py:96-114 | the layers' net displacement is \|zs\| layer shifts |
| ScanProperties.PrismMovesAndTags | scanner.py:93-117 | a prism scan makes resZ·(res²+2)+1 moves and records every lattice point on every z layer |
| ScanProperties.PrismNet | scanner.py:93-117 | z returns to its start when resZ ≥ 1 and ends −distance_z when resZ = 0; for res ≥ 2 x/y end −resZ·begin away |
| ScanProperties.PrismNetScaled | scanner.py:93-117 | the prism's net displacement is resZ layer shifts plus the final z return |
| ScanProperties.NetArithmetic | scanner.py:114-117 | resZ steps of distance_z/resZ cancel the final −distance_z |
| ScanProperties.StepsCancel | scanner.py:114 | resZ·(distance_z/resZ) = distance_z for resZ ≥ 1 |
| ScanProperties.LayerHeight | scanner.py:114 | after k layers the head stands k z-steps above the start |
| ScanProperties.LayerTagHeight | scanner.py:96-114 | for 0 < k < resZ, layer k's recorded z equals the head's height iff distance_z = 0 |
| ScanProperties.TagHeightDiffers | scanner.py:96-114 | k·dz/(resZ−1) = k·dz/resZ iff dz = 0 |
| ScanProperties.PrismOnline | scanner.py:96-117 | with the printer online, a prism scan completes with resZ·(res²+2)+1 queries |
| Grid.Linspace | scanner.py:59 | np.linspace returns n values |
| Grid.LinspaceEnds | scanner.py:59 | linspace starts at start, ends at stop when n ≥ 2, and is [start] when n = 1 |
| Grid.LinspaceStep | scanner.py:59 | consecutive linspace values differ by (stop − start)/(n − 1) |
| Grid.Row | scanner.py:59-60 | the inner comprehension pairs x with each y in order |
| Grid.Lattice | scanner.py:59-60 | the nested comprehension has \|xs\|·\|ys\| points |
| Grid.LatticeAt | scanner.py:59-60 | point i·\|ys\|+j is (xs[i], ys[j]) |
| Grid.LatticeLast | scanner.py:59-60 | the last point pairs the last x with the last y |
| Grid.Trunc | gcodetest.py:285-286 | Python's int() truncates toward zero: the floor for non-negative values |
| Text.CountConcat | gcode.py:76 | line breaks of a concatenation add up |
| Text.Split | processing/process_continuous_scan.py:31 | str.split never returns an empty list |
| Text.JoinSplit | gcode.py:76 | splitting a joined string at the separator and joining again is the identity |
| Text.SplitJoin | gcode.py:76 | splitting "\n".join(lines) gives the lines back when no line contains "\n" |
| Text.JoinCount | gcode.py:76 | "\n".join of n separator-free lines holds n−1 line breaks |
| Text.Remove | processing/process_continuous_scan.py:30 | str.replace(pat, "") never lengthens the string |
| Text.RemoveAbsent | processing/process_continuous_scan.py:30 | replace leaves a string without the pattern's first character unchanged |
| Text.RemoveLeading | processing/process_continuous_scan.py:30 | replace removes a leading occurrence |
| Text.RemoveTrailing | processing/process_continuous_scan.py:30 | replace removes a trailing ".pkl" when nothing earlier can match it |
| Text.Basename | processing/process_continuous_scan.py:30 | os.path.basename contains no '/' |
| Text.BasenameAfterSlash | processing/process_continuous_scan.py:30 | basename of dir + "/" + name is name |
| Text.StrLeTotal | processing/process_continuous_scan.py:12 | string comparison is total |
| Text.StrLeTrans | processing/process_continuous_scan.py:12 | string comparison is transitive |
| Sorting.Insert | processing/process_continuous_scan.py:38 | insertion adds exactly the element |
| Sorting.SortBy | processing/process_continuous_scan.py:38 | sorted() returns a permutation of its input |
| Sorting.InsertSorted | processing/process_continuous_scan.py:38 | inserting into a sorted list keeps it sorted |
| Sorting.SortBySorted | processing/process_continuous_scan.py:38 | sorted() returns a sorted list under a total preorder |
| PrinterPort.Keep | printer/printer.py:37-42 | a port is kept iff it was found and is not a Bluetooth or FireFly port |
| PrinterPort.KeepConcat | printer/printer.py:39-42 | filtering the concatenation of glob results is filtering each and concatenating |
| PrinterPort.KeepAll | printer/printer.py:42 | a list without Bluetooth or FireFly ports is kept whole |
| PrinterPort.CandidatesGrouped | printer/printer.py:39-42 | candidates are the filtered glob results of the five patterns, in pattern order |
| PrinterPort.ScanSerial | printer/printer.py:34-42 | the loop over the patterns returns exactly the filtered candidates |
| PrinterPort.ChooseSerial | printer/printer.py:25-31 | a non-empty serial is used as given; otherwise it fails iff there are no candidates and picks the first one |
| PrinterPort.ChosenIsCandidate | printer/printer.py:25-29 | a discovered port is not Bluetooth and was found by one of the patterns |
| PrinterPort.Printer.constructor | printer/printer.py:22-31 | the printer holds its serial |
| PrinterPort.Printer.Open | printer/printer.py:22-31 | construction fails iff the choice fails (RuntimeError 'No possible USB connections found'); otherwise the printer holds the chosen serial |
| GCode.Lookup | gcode.py:11-64 | a numeric setupData key yields its value; any other key is a KeyError naming it |
| GCode.SpeedFieldCases | gcode.py:62-64 | "Travel" gives F5000.0; "Weld" raises KeyError('WeldSpeed'); any other speed adds nothing; it fails iff the speed is "Weld" |
| GCode.FieldNoNewline | gcode.py:52-61 | a coordinate field holds no line break |
| GCode.MoveLinePrefix | gcode.py:50-66 | a move fails iff speed is "Weld"; otherwise the line starts with "G1 " |
| GCode.MoveLineSingle | gcode.py:50-66 | a move line holds no line break when its comment holds none |
| GCode.PauseLineShape | gcode.py:68-73 | a pause line is "G4 P" followed by the formatted milliseconds, without a line break |
| GCode.AppendKeepsLines | gcode.py:66-73 | appending a line without a break keeps the program a list of single lines |
| GCode.GCodeProgram.constructor | gcode.py:45-48 | a new program has no lines and no last point |
| GCode.GCodeProgram.AxisFields | gcode.py:51-61 | "G1 " followed by one field per given axis in X, Y, Z, E order; last_point takes each given x, y, z; the program is untouched |
| GCode.GCodeProgram.Move | gcode.py:50-66 | appends the move line, or raises KeyError and appends nothing; updates last_point for each given axis, even when the move then fails; keeps the program a list of single lines |
| GCode.GCodeProgram.Pause | gcode.py:68-73 | appends the pause line; last_point unchanged; keeps the program a list of single lines |
| GCode.GCodeProgram.ToString | gcode.py:75-76 | no lines give ""; one line gives that line |
| GCode.GCodeProgram.ToStringLines | gcode.py:75-76 | str() of n ≥ 1 single lines holds n−1 line breaks and splits back into exactly those lines |
| GCodeTest.TravelMove | gcodetest.py:84-102 | a travel move succeeds with a "G1 " line ending in one line break |
| GCodeTest.PauseCmd | gcodetest.py:172-177 | "G4 P" + ms + line break |
| GCodeTest.PauseOneLine | gcodetest.py:172-177 | a pause is exactly one line |
| GCodeTest.CalcTime | gcodetest.py:80-82 | fails (ZeroDivisionError) iff speed = 0; otherwise time·speed = dist |
| GCodeTest.StartSequence | gcodetest.py:180-187 | the start sequence is empty |
| GCodeTest.ArcMargin | gcodetest.py:104-116 | a margin, zero included, adds "D<margin> " before the line break |
| GCodeTest.RetractionSettings | gcodetest.py:235-236 | ret = RetractionLen + RetractionPlay and ex = ret·Retractionfactor + 2·RetractionTravel·ExtrusionFactor, from the setup values |
| GCodeTest.EAfter | gcodetest.py:242-246 | the E after k passes is the E after k − 1 passes plus ex and minus ret |
| GCodeTest.Emitter.ExtrudePair | gcodetest.py:242-247 | one pass extrudes to E + ex, pauses, retracts to E + ex − ret and pauses; lastPoint unchanged |
| GCodeTest.ExtrudeStep | gcodetest.py:242-247 | each pass adds four lines to the extrusion test text |
| GCodeTest.ExtrudeLines | gcodetest.py:230-248 | the extrusion test text has 4·k+1 lines |
| Text.RepeatCount | gcodetest.py:270-272 | k copies of a text hold k times its occurrences of a character |
| GCodeTest.TripLines | gcodetest.py:271-272 | one round trip of the move test is two lines |
| GCodeTest.ShuttleLines | gcodetest.py:264-272 | the move test text has 2·k lines |
| GCodeTest.GridCount | gcodetest.py:285-286 | a zero resolution is a division error; a positive one gives floor(\|x2−x1\|/res)+1 ≥ 1 steps; a negative one gives at most 1 |
| GCodeTest.GridScan | gcodetest.py:285-287 | a division error iff either resolution is zero, the x count checked before the y count; otherwise linspace's ValueError iff the x count is negative, or the y count is negative while the x count is positive; an x count of 0 gives no points; otherwise the lattice of the two linspaces |
| GCodeTest.ZeroResolutionFirst | gcodetest.py:285-287 | hres = −3 with vres = 0 is a division error, although the x count alone is already negative |
| GCodeTest.EmptyRowsSkipY | gcodetest.py:287 | an x count of 0 leaves the y linspace unevaluated, so a negative y count raises nothing and the grid is empty |
| GCodeTest.GridLines | gcodetest.py:288-290 | the grid text holds two lines per point |
| GCodeTest.GridPoints | gcodetest.py:287 | the grid has n_hsteps·n_vsteps points |
| GCodeTest.GridCorners | gcodetest.py:287 | the grid starts at top_left and, with two or more steps each way, ends at bottom_right |
| GCodeTest.Emitter.constructor | gcodetest.py:59-60 | E = 0 and lastPoint all None |
| GCodeTest.Emitter.AxisFields | gcodetest.py:86-96 | "G1 " followed by one field per given axis in X, Y, Z, E order; lastPoint takes each given x, y, z; E unchanged |
| GCodeTest.Emitter.Move | gcodetest.py:84-102 | returns the move command (or KeyError for "Weld"); lastPoint updated per given axis; E unchanged |
| GCodeTest.Emitter.Travel | gcodetest.py:84-102 | a travel move returns the travel command and updates lastPoint |
| GCodeTest.Emitter.InitiateArc | gcodetest.py:104-116 | returns the M3 ignition command and leaves lastPoint at the ignition coordinate |
| GCodeTest.Emitter.StopSequence | gcodetest.py:223-228 | fails on a None z, changing nothing; otherwise recenters to (0, 0, z+50) and homes X |
| GCodeTest.Emitter.TestExtrudeSequence | gcodetest.py:230-248 | emits the NExtrude extrude/retract pairs, each pair at its running E, and leaves E = NExtrude·(ex − ret) |
| GCodeTest.Emitter.TestMoveSequence | gcodetest.py:264-272 | emits 100 shuttle pairs and leaves lastPoint at (0, 0, 40) |
| GCodeTest.Emitter.MoveGrid | gcodetest.py:275-291 | fails exactly as the grid scan does (zero resolution, then a negative count), changing nothing; otherwise emits a move and a pause per grid point and leaves lastPoint at the last point |
| GCodeTest.Emitter.TravelGrid | gcodetest.py:288-290 | the loop emits a move and a pause per point, in order |
| GCodeTest.MoveGridLines | gcodetest.py:275-291 | move_grid emits 2·n_hsteps·n_vsteps lines |
| ContinuousScan.SliceBound | processing/process_continuous_scan.py:28 | a slice bound is clamped into [0, n], negative bounds counting from the end |
| ContinuousScan.Window | processing/process_continuous_scan.py:28 | the bin window lies within the row and is the given bounds when they are in range |
| ContinuousScan.RowMax | processing/process_continuous_scan.py:28 | the maximum is in the row and at least every element |
| ContinuousScan.Amplitudes | processing/process_continuous_scan.py:28 | one amplitude per time step: that row's maximum over the window |
| ContinuousScan.DecodeName | processing/process_continuous_scan.py:30-32 | succeeds iff every '_' part parses and there are three; the values are the parsed parts; otherwise ValueError (not a number, or wrong count) |
| ContinuousScan.DecodeSavedName | processing/process_continuous_scan.py:30-32 | a file saved as dir/continuous_a_b_c.pkl decodes to (a, b, c) |
| ContinuousScan.Ingest | processing/process_continuous_scan.py:19-35 | reading one file appends exactly one entry and keeps the earlier ones |
| ContinuousScan.Gather | processing/process_continuous_scan.py:19-35 | a successful read has one entry per file |
| ContinuousScan.GatherStops | processing/process_continuous_scan.py:19-35 | an error reading a file ends the whole read with that error |
| ContinuousScan.GatherError | processing/process_continuous_scan.py:19-35 | reading fails only on a file, never with 'No Data Found' |
| ContinuousScan.GatherEntry | processing/process_continuous_scan.py:28-35 | entry k has file k's coordinates and one amplitude per time step of its capture |
| ContinuousScan.GatherBounds | processing/process_continuous_scan.py:26-27 | after the loop a truthy bound is kept; a falsy start is 0 and a falsy end is the first capture's bin count, which must then be non-zero for the read to succeed |
| ContinuousScan.IngestAmps | processing/process_continuous_scan.py:26-28 | one pass's amplitudes are its capture's row maxima over the window of its defaulted bounds, and that window is not empty |
| ContinuousScan.GatherAmps | processing/process_continuous_scan.py:19-35 | entry k's amplitudes are file k's row maxima over the window [sample_start, sample_end) with the bounds defaulted as the loop defaults them, and that window is not empty |
| ContinuousScan.SampleEndPersists | processing/process_continuous_scan.py:27 | an unset sample_end becomes the first file's bin count and stays so |
| ContinuousScan.SampleStartDefault | processing/process_continuous_scan.py:26 | an unset sample_start becomes 0 |
| ContinuousScan.EntryLeTotalPreorder | processing/process_continuous_scan.py:38 | tuple order on (xmin, xmax, y) is a total preorder |
| ContinuousScan.StrLeTotalPreorder | processing/process_continuous_scan.py:12 | string order is a total preorder |
| ContinuousScan.NamesSorted | processing/process_continuous_scan.py:12 | the file names are read in sorted order, a permutation of the glob result |
| ContinuousScan.MedianBounds | processing/process_continuous_scan.py:46 | the median length lies between the lengths and is at least the smallest |
| ContinuousScan.Lengths | processing/process_continuous_scan.py:46 | one length per strip, each that strip's length |
| ContinuousScan.Resize | processing/process_continuous_scan.py:48-50 | interpolation yields target_size values |
| ContinuousScan.Resized | processing/process_continuous_scan.py:46-51 | fails iff some strip is empty; otherwise one row per strip, each of median length |
| ContinuousScan.CompileDataToArray | processing/process_continuous_scan.py:11-53 | the method computes the compiled image or error |
| ContinuousScan.ReadFiles | processing/process_continuous_scan.py:19-35 | the loop gathers the files; XMIN/XMAX are the last entry's |
| ContinuousScan.ReadFile | processing/process_continuous_scan.py:20-35 | one file's pass defaults the bounds, reduces the bins, decodes the name and appends the entry, as `Ingest` describes |
| ContinuousScan.NoDataIffNoFiles | processing/process_continuous_scan.py:39-40 | 'No Data Found' is raised iff no file was found |
| ContinuousScan.CompileShape | processing/process_continuous_scan.py:11-53 | a compiled image has one row per file, each of the median length, over the entries sorted and permuted |
| Benchmark.Sentinel | microphone/benchmark_microphone.py:30 | a corrupted read is end − begin values of −1 |
| Benchmark.Collect | microphone/benchmark_microphone.py:19-31 | a completed collection holds one row per query |
| Benchmark.CollectFails | microphone/benchmark_microphone.py:19-31 | collection fails iff some query raises something other than ValueError |
| Benchmark.CollectRows | microphone/benchmark_microphone.py:19-31 | row i is the fetched row, or the −1 sentinel for a corrupted read |
| Benchmark.CollectSamples | microphone/benchmark_microphone.py:19-31 | the loop collects exactly the ten rows |
| Benchmark.FailureKept | microphone/benchmark_microphone.py:19-31 | an exception ends the collection |
| Benchmark.SentinelSum | microphone/benchmark_microphone.py:30 | a sentinel row sums to −n |
| Benchmark.SentinelMean | microphone/benchmark_microphone.py:30-39 | a sentinel row's mean is −1 |
| Benchmark.Means | microphone/benchmark_microphone.py:39 | one mean per row |
| Benchmark.DistinctSnoc | microphone/benchmark_microphone.py:42 | the set of means grows by the new mean |
| Benchmark.DistinctBound | microphone/benchmark_microphone.py:42-43 | there are at most as many unique means as means, and exactly as many when all differ |
| Benchmark.ThreeAlike | microphone/benchmark_microphone.py:42-48 | three equal means leave at most n−2 unique |
| Benchmark.TwoAlike | microphone/benchmark_microphone.py:42-48 | two equal means leave at most n−1 unique |
| Benchmark.PassesCases | microphone/benchmark_microphone.py:46-48 | all distinct means pass; three equal means fail |
| Benchmark.TestQueryWithDelay | microphone/benchmark_microphone.py:13-48 | fails as the collection does; otherwise returns whether the means are nearly all distinct |
| Benchmark.CorruptReadsFail | microphone/benchmark_microphone.py:24-48 | three corrupted reads make the test fail |
| Benchmark.Pow2Step | microphone/benchmark_microphone.py:71-74 | doubling the delay adds one to the exponent |
| Benchmark.NextDelay | microphone/benchmark_microphone.py:71-74 | a positive delay stays positive and shrinks iff the round passed |
| Benchmark.NextDelayPow2 | microphone/benchmark_microphone.py:71-74 | halving 0.5·2^e gives 0.5·2^(e−1); doubling it gives 0.5·2^(e+1) |
| Benchmark.AdaptDelay | microphone/benchmark_microphone.py:65-74 | up to ten rounds starting at 0.5 s; each tried delay is the previous one halved after a pass and doubled after a failure; an exception from a round ends the loop with that error; otherwise all ten rounds run; the final delay is 0.5·2^(fails − passes) |

## Left out

- Device drivers (`microphone/oscilloscope.py`, `microphone/microphone.py`, `siggen/rigol.py`, `printer/find_printer.py`): they talk to hardware. Their answers are oracles: `online`, `fetch`, `load`.
- The printer's `online()` and `move_coord`, which `Printer` in printer/printer.py does not define; scanner.py calls them as an external device. The model treats `online()` as an oracle and a move as an issued event.
- The audio recording itself (`record_to_file`) is kept as an issued event; the file-name formatting with `{}` is kept only as the coordinate tag.
- `time.sleep`, the movement delay and the Euclidean distance it uses (scanner.py:127-132): they only wait and do not change what is issued.
- `time.time()` folder names and `os.makedirs` in the scans: file-system effects.
- `circle`, `line`, `printSegment`, `printSegments`, `printSequence`, `saveData`, the argparse mains and the plotting: outside the modelled core.
- `GCodeProgram.save`: file output of `str(self)`, which is modelled.
- `GCodeProgram` `verbose` and `startup`: stored or ignored, and used nowhere.
- `pickle.load` and `glob.glob`: parameters (`load`, `glob`, the list of paths).
- `np.interp` values: an `Interpolant` parameter. Only the resampled length is proved.
- float32 rounding and float arithmetic: numbers are exact reals.
- `Text.Formatter`: the decimal text of `str()` is left abstract. Python's `str(200)` is "200" while `str(200.0)` is "200.0"; every number is modelled as a real under one formatter.
- ContinuousScan.EntryLe: the model compares entries on (xmin, xmax, y) only. When two strips tie on those, the source goes on to compare their numpy amplitude arrays, which raises ValueError when the captures have more than one record. Single-record ties are ordered by their amplitude in the source and kept in name order by the model's stable sort.
- ContinuousScan.MedianLen: for an even count the model takes the floored mean of the two middle lengths. `np.median` always returns a float64. The model follows numpy 1.12–1.17, whose `linspace` truncates that float median with `int()`. numpy 1.18 and later refuse any float count, so there the call at processing/process_continuous_scan.py:48 raises TypeError on every non-empty input.
- ContinuousScan.Capture: every loaded capture is a two-dimensional array (`Rectangular`). The ValueError that `_, n_freq_bins = fft_data.shape` (processing/process_continuous_scan.py:25) raises for a one- or three-dimensional pickle, before the bounds are defaulted, is not modelled.
- GCodeTest.GridCount: numpy division by zero gives a warning and infinity, then `int()` raises. The model treats it as a division error.
- Benchmark.TestQueryWithDelay: requires begin < end and rows of length end − begin. The source's mean of an empty row is NaN, and a short row makes `np.array` ragged.
- Benchmark: `_fetch_fft_sample` is called in the source with two arguments. Its own signature is not part of this model; `fetch` is an oracle per query.
- Scanning.Scanner.Connect: the printer's construction-time choice is modelled; the `Microphone()` construction (scanner.py:24) and the sleep are not. `print(self.p._p.online)` (scanner.py:31) is treated as part of the external printer device: `Printer` in printer/printer.py defines no `_p`, so as written that line would raise AttributeError.
- GCode.Lookup: the non-numeric keys "Mode", "DryRun" and "IgnitCoord" are not in the table, so looking them up gives KeyError in the model; "NExtrude" (the int 100) is held as 100.0.
- GCodeTest.Emitter: `setupData` is modelled at its initial values. `printSegment` (gcodetest.py:144) sets `"WeldSpeed"`, and `printSequence` (gcodetest.py:203-205, 219) changes `Z0`, `ExtrusionFactor` and `IgnitCoord`; both are outside the model.
