# GMAT propagation and estimation core in Dafny

This project models a part of the General Mission Analysis Tool (GMAT):
the bookkeeping and arithmetic around state propagation, estimation and
measurement modelling that does not depend on numerical integration; the
SPICE library, files and coordinate conversions are parameters. Each
source file of that core has one module, in the form GMAT gives it:
classes whose methods update fields become Dafny classes with `modifies`
frames, in-place matrix loops keep their
`array2`, and pure computations become functions with lemmas about them.

- `Common.dfy`: results with error messages, sums, first and last index,
  insertion and removal in sequences, modular-arithmetic helpers.
- `Matrices.dfy`: matrices as values (`seq<seq<real>>`) and the value of an
  `array2`.
- `Covariance.dfy`: `Covariance`, the element-structured covariance matrix
  (element names, ids, sizes and owners, resizing by element, block writes).
- `ErrorModel.dfy`: the measurement error model (measurement types and units,
  bias, pass biases and their covariance block, solve-for list).
- `Oscillator.dfy`: the transmitter oscillator (polynomial frequency model,
  drift and coefficient sigmas and their covariance).
- `PropagationStateManager.dfy`: the objects being propagated, their
  properties, and `SortVector`, which lays the state out as one vector
  ordered stably by element id, with the state map and the STM row map.
- `Propagator.dfy`: the propagator base class (the step size and its
  sign, the buffered initial step, the process-noise step schedule and the
  ephemeris spans).
- `SeqEstimator.dfy`: the sequential estimator (its parameters, the state
  machine it runs, smoothing epochs, covariance conversion and data
  editing).
- `ExtendedKalmanFilter.dfy`: the extended Kalman filter (the square-root
  covariance and its epsilon conversion, writing and reading it in the
  warm-start file, the measurement update, delayed rectification and the
  epoch advance).
- `PlanetographicRegion.dfy`: a region on a body bounded by latitude and
  longitude corners (splitting the text it is read from, the setters and
  the corner-list check, the segment-crossing test and the inside test by
  crossing parity, the parse-error messages).
- `CCSDSOEMReader.dfy`: the reader of CCSDS Orbit Ephemeris Message files
  (the version check, the header, meta-data, data and covariance blocks
  read line by line into segments, the check that nothing follows them).
- `SPICEPropagator.dfy`: the two-line-element (TLE) propagator built on
  SPICE's SGP4 evaluation (the checks a TLE must pass, the checksum
  warning, the epoch a spacecraft takes from its TLE, the 32-value input
  buffer, its refresh before a step, the parameter access rules, the
  set-up of every spacecraft in Initialize and the epoch bookkeeping of a
  step).
- `Troposphere.dfy`: the troposphere media correction (the model
  dispatch, the Marini refractivity table search, the TRK-2-23 path: the
  station-to-complex mapping, the search of the DSN media database for
  seasonal and delta lines, the constant, Fourier and power-series time
  models, the zenith corrections and the Niell mapping coefficients).
- `BRTSRangeAdapter.dfy`: the BRTS range measurement (the feasibility a
  path's legs decide, the C-value and correction accumulated over the legs,
  noise and bias, and the derivatives scaled by the multiplier).
- `TdrsServiceAccess.dfy`: what the TDRS adapters share (the indexed list
  of service-access names and the transponder turn-around ratios).
- `BRTSDopplerAdapter.dfy`: the BRTS Doppler measurement built from four
  BRTS range paths (the TDRS id of a node, the pilot frequency of each
  service access, the multipliers, the combined value and feasibility,
  the walk over the signal paths and the combined derivatives).
- `TDRS3LReturnDopplerAdapter.dfy`: the TDRS three-legged return Doppler
  measurement built from four range paths (the configuration, which keeps
  the node-4 frequency and band of the End-Spacecraft path, the
  multipliers, the value as the range-rate ratios weighted by the node-4
  and pilot frequencies, the feasibility precedence, the path loop and
  the oscillator partials as the chain rule).
- `TDRSDOWDAdapter.dfy`: the TDRS differenced one-way Doppler measurement
  (handing the service-access lists to its two three-legged sub-adapters,
  the parameter setters that forward to them, the configuration of each
  TDRS, the comparison Doppler minus the quiet reference Doppler path by
  path with its own noise and bias, the feasibility precedence, and the
  derivatives as the difference of the sub-adapters' tables).
- `SpiceOrbitKernelReader.dfy`: the reader of SPICE orbit kernels (the
  scan of the kernels for a body's coverage windows, as one start and end
  or one span per window, the target name passed to CSPICE, and the
  bucketing of "Insufficient ephemeris data" messages into gap warnings
  and errors).

- `CcsdsEphPropagator.dfy`: the propagator that reads a spacecraft's
  states from a CCSDS OEM file (the checks and the file loading of
  Initialize, the frame the file's states are given in, the parameter
  access rules, and a step: the epoch moved by the step, paused at the
  bounds of the file's span, snapped within 1e-10 days, or the exception
  for a step outside it).
- `StkEPropagator.dfy`: the propagator that reads a spacecraft's states
  from an STK ephemeris file (the STK frame names, the spans it keeps, the
  checks and loading of Initialize, assignment, and a step with the
  CCSDS-OEM propagator's epoch arithmetic whose state is converted to the
  propagator's frame).
- `SPKPropagator.dfy`: the propagator that reads a spacecraft's states
  from SPICE orbit kernels (the kernel-list parameter, the checks and the
  kernel loading of Initialize, the span the kernel reader finds, the first
  state, assignment, a step and UpdateState), over the kernel reader's
  model.
- `ContactLocator.dfy`: the contact locator, which finds when observers
  (ground stations, or spacecraft with an imager) see a target (its
  parameters and their checks, the observer list and its indexed access,
  renaming and clearing, the observer checks and report columns of
  Initialize, the aberration correction, the imager frame ids, the
  bisection of a region crossing and the order of the report).
- `IntrusionLocator.dfy`: the intrusion locator, which finds when a body
  enters the field of view of a spacecraft's imagers (its parameters and
  their checks, the sensor and intruding-body lists and their indexed
  access, renaming and clearing, the checks and SPICE frame ids of
  Initialize, the epochs at which an intrusion is sampled, and the phase
  and angle computed at each sample).
- `StateConversions.dfy`: the orbit-state conversions of the
  optimal-control prototype (the routing of StateConv through the
  Cartesian state, the clamped arc-cosine, the input checks and
  degenerate-orbit rewrite of Kep2Cart, the special cases of Cart2Kep, the
  skew-symmetric matrix and the angle normalisation of TA2EA).
- `GMATFunction.dfy`: the function interface of the optimal-control
  prototype (per-point configurations and scalers placed by insert or
  overwrite, custom settings, scaled bounds, the slicing of the requested
  sub-states, the frame and representation changes of the orbit
  sub-state, the representation names, and the layout of the Jacobian of
  the function's variables).

Behaviour kept as written in GMAT:

- `Covariance.SetElementSizeByName` passes `startLoc + size` as the row to
  resize at, and the resizing method adds the block start again.
- `Covariance.ConstructDiagonalRHS` and `ConstructMatrixRHS` always return
  false.
- `Oscillator.SigmaAt` (the indexed getter of the coefficient sigmas)
  returns the coefficient, not its sigma.
- `Oscillator.Initialize` returns false even when it succeeds.
- `PropagationStateManager.ObjectEpochsMatch` with precision time compares
  a difference in seconds with the tolerance applied to days otherwise.
- `SPICEPropagator.Initialize` checks every later spacecraft's epoch by
  reading the first spacecraft's epoch again, so spacecraft with different
  epochs are not caught; `SetUpSpacecraft` states when the mismatch
  error can arise.
- `SPICEPropagator.Step()` rebuilds a spacecraft's SPICE input buffer only
  when J2 changed; `RefreshFollowsJ2` states that a change of the other
  constants alone leaves the old buffer in use.
- A failed `SPICEPropagator.Step(dt)` leaves the step size at dt.
- `CcsdsEphPropagator.Step` does not convert the state read from the file
  to the propagator's frame (Initialize does), and a step stopped at a
  bound keeps the overshot time from the ephemeris start, which later
  steps continue from until the epoch is moved from outside.
- `StkEPropagator.Initialize` never reports true, not even when it loads
  the file, and when the base class fails it still gives the object the
  epoch from the script.
- `StkEPropagator.UpdateState` converts the state at the last epoch, not at
  the epoch it reads the state for.
- `SPKPropagator.Step` answers false for a step off the span yet still
  stores the unset state and gives the spacecraft the epoch off the span;
  a failed SPICE query inside the span is swallowed when the precision-time
  epoch, which the real-valued path never updates, lies in the span.
- `ContactLocator.Initialize` sets `reportIntervals` and `intervalStep`
  only for the known templates, and accepts an unknown one with no
  columns; the imager frame name keeps 26 characters but cuts a longer
  one to 25.
- `IntrusionLocator.SetRealParameter` accepts a minimum phase of 0 and 1
  although its message calls the interval open; `Initialize` refuses the
  default SpacecraftOrigin coordinates whenever there is an imager;
  `RenameRefObject` stops at the first match and then skips the base
  class; no action clears the intruding bodies.
- The `GMATFunction` insert places the new entry at pointIdx, before the
  entry that was there, though its comment says after it.
- `GMATFunction`'s Jacobian uses the identity for the axes rotation, whose
  derivative is not written yet, and with equal origins its zero origin
  Jacobian also removes the time partials of the decision vector, so the
  time column is the function-side partial alone (`EqualOriginsBlock`).
## Model

| member | source | states |
|---|---|---|
| CovarianceModel.Covariance.Put | src/base/foundation/Covariance.cpp:106-116 | an element write succeeds iff 0 <= r < dimension and 0 <= c < dimension, and then changes exactly that entry; otherwise nothing changes |
| CovarianceModel.Covariance.At | src/base/foundation/Covariance.cpp:119-129 | an element read succeeds iff 0 <= r < dimension and 0 <= c < dimension, and then yields that matrix entry |
| CovarianceModel.Covariance.AddCovarianceElement | src/base/foundation/Covariance.cpp:132-220 | size <= 0 fails; an existing (name, owner name) pair changes nothing; otherwise the four lists are appended, the dimension grows by the size and the old matrix stays in the top-left corner with zeros elsewhere |
| CovarianceModel.Covariance.ConstructDiagonalRHS | src/base/foundation/Covariance.cpp:246-273 | an unsized vector or one that does not fit fails; otherwise the block at (start, start) becomes diag(v) and the result is false |
| CovarianceModel.Covariance.ConstructMatrixRHS | src/base/foundation/Covariance.cpp:276-309 | unsized, non-square or non-fitting input fails; otherwise the block becomes the symmetric part of the input, nothing else changes, and the result is false |
| CovarianceModel.WriteSymmetrizedBlock | src/base/foundation/Covariance.cpp:293-306 | the upper-triangle loop with mirrored writes leaves exactly the symmetric part of the input in the block |
| CovarianceModel.SymmetrizedBlockIsSymmetric | src/base/foundation/Covariance.cpp:293-306 | the written block is symmetric |
| CovarianceModel.SymmetrizedBlockKeepsDiagonal | src/base/foundation/Covariance.cpp:295-299 | the written block keeps the input's diagonal |
| CovarianceModel.SymmetrizedBlockOfSymmetric | src/base/foundation/Covariance.cpp:293-306 | a symmetric input reads back unchanged |
| CovarianceModel.Covariance.FillMatrix | src/base/foundation/Covariance.cpp:312-343 | a size mismatch without override, or a non-square input, fails; otherwise the matrix becomes the input, and a resize replaces the element list by one GenericCovariance element of the full size |
| CovarianceModel.Covariance.ElementIndexByName | src/base/foundation/Covariance.cpp:395-407 | the index is the last position holding the name, -1 iff the name is absent |
| CovarianceModel.Covariance.ElementSizeByName | src/base/foundation/Covariance.cpp:477-485 | the size of the last element with that name, -1 when absent |
| CovarianceModel.Covariance.ElementSizeById | src/base/foundation/Covariance.cpp:501-509 | the size of the last element with that id, -1 when absent |
| CovarianceModel.Covariance.SubMatrixStartById | src/base/foundation/Covariance.cpp:628-639 | the start is the sum of the sizes before the first element with the id (the whole dimension when absent) |
| CovarianceModel.Covariance.SubMatrixStartByName | src/base/foundation/Covariance.cpp:655-669 | fails iff the name is absent, otherwise the sum of the sizes before its first occurrence |
| CovarianceModel.Covariance.IncreasingElementSize | src/base/foundation/Covariance.cpp:728-788 | with at = atRow + block start: fails for an unknown name or an index outside [0, n]; otherwise the matrix is the (n+k)-square grown matrix (zero rows/columns [at, at+k), other entries shifted) and the element size and dimension grow by k |
| CovarianceModel.Covariance.IncreasingElementSizeById | src/base/foundation/Covariance.cpp:791-843 | the same growth with the block and the element found by parameter id |
| CovarianceModel.Covariance.DecreasingElementSize | src/base/foundation/Covariance.cpp:846-896 | k >= the matrix size gives false and no change; an unknown name fails; otherwise the k rows/columns before at are removed and the size and dimension shrink by k |
| CovarianceModel.Covariance.DecreasingElementSizeById | src/base/foundation/Covariance.cpp:899-949 | the same shrinking by parameter id |
| CovarianceModel.GrowMatrix | src/base/foundation/Covariance.cpp:742-776 | the nested copy loop produces exactly the grown matrix |
| CovarianceModel.ShrinkMatrix | src/base/foundation/Covariance.cpp:863-885 | the nested copy loop produces exactly the shrunk matrix |
| CovarianceModel.ShrinkUndoesGrow | src/base/foundation/Covariance.cpp:728-896 | removing the k rows/columns just inserted restores the original matrix |
| CovarianceModel.SumUpdate | src/base/foundation/Covariance.cpp:783-785 | growing one element size by k grows the sum of sizes by k, so dimension == sum of sizes is kept |
| CovarianceModel.Covariance.ElementIdByName | src/base/foundation/Covariance.cpp:449-461 | the id of the last element with that name, -1 when no element has it |
| CovarianceModel.ResizedForId | src/base/foundation/Covariance.cpp:525-565 | for an id some element has, the last such element is resized at offset + its size (past the start of the first element with its name); for an unknown id nothing changes and the answer is true exactly when -1 was asked for, and an error otherwise |
| CovarianceModel.ResizedAt | src/base/foundation/Covariance.cpp:531-537 | a larger size grows the matrix at the row when it lies inside and fails otherwise; a smaller size shrinks it unless the change reaches the matrix size (false); the same size changes nothing; the size that changes is the last element with the same name |
| CovarianceModel.Covariance.ResizeElement | src/base/foundation/Covariance.cpp:531-537 | the same size returns true unchanged; a larger one goes to IncreasingElementSize and a smaller one to DecreasingElementSize, with the outcome ResizedAt describes |
| CovarianceModel.Covariance.GrowElement | src/base/foundation/Covariance.cpp:533-534 | the growing branch: IncreasingElementSize by the difference gives the growth ResizedAt describes, and on failure the entries, sizes and dimension are unchanged |
| CovarianceModel.Covariance.ShrinkElementTo | src/base/foundation/Covariance.cpp:535-536 | the shrinking branch: DecreasingElementSize by the difference gives the shrinking ResizedAt describes, and when it answers false nothing changes |
| CovarianceModel.Covariance.ResizeForId | src/base/foundation/Covariance.cpp:528-537 | with the element found through its id: the resize ResizedForId describes, or for an unknown id the -1 rule and no change |
| CovarianceModel.Covariance.SetElementSizeByName | src/base/foundation/Covariance.cpp:525-538 | the id of the name decides the element; the row passed on is the start of the id's block plus the size, to which the resize adds the block start of the name once more; the grow, shrink, same-size and unknown-id outcomes are those of ResizedForId |
| CovarianceModel.Covariance.SetElementSizeById | src/base/foundation/Covariance.cpp:554-565 | the row passed on is the element's own size, so growing inserts the zero rows and columns at the end of its block (when names are unique) and shrinking removes the last ones; the grow, shrink, same-size and unknown-id outcomes are those of ResizedForId |
| CovarianceModel.ByNameInsertIndexCounterexample | src/base/foundation/Covariance.cpp:536-537 | with two one-row blocks, the by-name path asks to insert at index 3 of a 2-by-2 matrix, while the block of the second element ends at 2 |
| CovarianceModel.ByIdInsertIndex | src/base/foundation/Covariance.cpp:563-564 | the by-id path inserts at the end of the element's block, the sum of the sizes up to and including it |
| CovarianceModel.Covariance.GetCovarianceBlock | src/base/foundation/Covariance.cpp:964-1004 | an unknown id gives NULL; otherwise the size-by-size diagonal block at the first matching element's offset (an error when it does not fit) |
| CovarianceModel.Covariance.CopyBlock | src/base/foundation/Covariance.cpp:985-992 | the copy loop returns exactly that sub-block |
| CovarianceModel.Covariance.PrepareMatrix | src/base/foundation/Covariance.cpp:1007-1019 | the matrix becomes the dimension-square identity; the element list is unchanged |
| CovarianceModel.WriteDiagonalBlock | src/base/foundation/Covariance.cpp:258-271 | the in-place loop writes d on the block's diagonal and zeros elsewhere in the block, leaving the rest of the matrix unchanged |
| CovarianceModel.Covariance.ShrinkElement | src/base/foundation/Covariance.cpp:864-895 | the k rows and columns before at are removed, the element's size and the dimension shrink by k, and the element list is kept |
| ErrorModelModel.GetUnit | plugins/EstimationPlugin/src/base/errormodel/ErrorModel.cpp:433-480 | range types give km, DSN_SeqRange gives RU, Doppler/TCP/DOWD types give Hz, RangeRate gives km/s, angle types give deg, and the unit is empty exactly for every other type |
| ErrorModelModel.AvailableTypes | plugins/EstimationPlugin/src/base/errormodel/ErrorModel.cpp:1545-1579 | 14 types in the normal run mode, 20 in TESTING mode |
| ErrorModelModel.TestingOnlyTypesNeedTesting | plugins/EstimationPlugin/src/base/errormodel/ErrorModel.cpp:1566-1576 | a type is available outside TESTING mode iff it is available in TESTING mode and is not one of RightAscension, Declination, BRTS_Range, BRTS_Doppler, SN_Doppler_Rtn, SN_DOWD |
| ErrorModelModel.AvailableTypesHaveUnits | plugins/EstimationPlugin/src/base/errormodel/ErrorModel.cpp:433-480 | every type the Type parameter accepts, in either run mode, has a non-empty unit |
| ErrorModelModel.FirstPassFrom | plugins/EstimationPlugin/src/base/errormodel/ErrorModel.cpp:1772-1784 | the first pass j >= i whose [start_j, start_j+1) holds t, or the last pass when none does |
| ErrorModelModel.PassNumber | plugins/EstimationPlugin/src/base/errormodel/ErrorModel.cpp:1769-1790 | the pass number is a valid pass index |
| ErrorModelModel.PassNumberMeaning | plugins/EstimationPlugin/src/base/errormodel/ErrorModel.cpp:1769-1790 | pass 0 before the second start; otherwise the first pass whose interval holds t, and the last pass exactly when no interval holds t |
| ErrorModelModel.PassNumberOnSortedStarts | plugins/EstimationPlugin/src/base/errormodel/ErrorModel.cpp:1769-1790 | with increasing start epochs and t not before the first, the chosen pass starts at or before t and the next pass starts after t |
| ErrorModelModel.LastStartBefore | plugins/EstimationPlugin/src/base/errormodel/ErrorModel.cpp:1772-1784 | with increasing starts, t in no earlier interval means t is at or after start n |
| ErrorModelModel.ErrorModel.GetBiasPassNumber | plugins/EstimationPlugin/src/base/errormodel/ErrorModel.cpp:1769-1790 | the loop returns the pass number for t; an empty start list is an error |
| ErrorModelModel.ErrorModel.GetPassBias | plugins/EstimationPlugin/src/base/errormodel/ErrorModel.cpp:1801-1804 | the pass bias indexed by the pass number for t, bounds-checked |
| ErrorModelModel.ErrorModel.PassBiasAt | plugins/EstimationPlugin/src/base/errormodel/ErrorModel.cpp:1143-1155 | an indexed read succeeds iff 0 <= index < size and yields that pass bias |
| ErrorModelModel.ErrorModel.constructor | plugins/EstimationPlugin/src/base/errormodel/ErrorModel.cpp:80-118 | defaults DSN_SeqRange, noise sigma 103, bias 0, bias sigma 1e70; exactly one pass bias equal to the bias with start epoch 0; a 2-by-2 covariance with the squared bias sigma on the diagonal |
| ErrorModelModel.NewBiasElement | plugins/EstimationPlugin/src/base/errormodel/ErrorModel.cpp:100-102 | the Bias element of size 1 with variance sigma squared |
| ErrorModelModel.AddPassBiasesElement | plugins/EstimationPlugin/src/base/errormodel/ErrorModel.cpp:109-118 | the PassBiases element after it, with sigma squared on its diagonal and zero cross terms |
| ErrorModelModel.ErrorModel.Initialize | plugins/EstimationPlugin/src/base/errormodel/ErrorModel.cpp:321-350 | an initialized model stays so; otherwise it fails iff the type is GPS_PosVec and Bias or PassBiases is a solve-for, and succeeds by becoming initialized |
| ErrorModelModel.ErrorModel.SetSolveFor | plugins/EstimationPlugin/src/base/errormodel/ErrorModel.cpp:657-693 | "{}" clears the list; otherwise the value is appended iff it is Bias or PassBiases, not yet listed, and does not make both listed; every refusal leaves the list as it was |
| ErrorModelModel.ErrorModel.SetType | plugins/EstimationPlugin/src/base/errormodel/ErrorModel.cpp:695-717 | the type is set iff it is among the available types of the run mode; otherwise it is an error and the type is unchanged |
| ErrorModelModel.ErrorModel.SetNoiseSigma | plugins/EstimationPlugin/src/base/errormodel/ErrorModel.cpp:1052-1059 | a sigma <= 0 is refused; otherwise it is set and returned |
| ErrorModelModel.ErrorModel.SetBias | plugins/EstimationPlugin/src/base/errormodel/ErrorModel.cpp:1061-1065 | any bias is set and returned; the pass biases are not touched |
| ErrorModelModel.ErrorModel.SetBiasSigma | plugins/EstimationPlugin/src/base/errormodel/ErrorModel.cpp:1067-1090 | a sigma <= 0 is refused and changes nothing; otherwise the covariance becomes WithBiasVariances of the old one with sigma squared |
| ErrorModelModel.WithBiasVariances | plugins/EstimationPlugin/src/base/errormodel/ErrorModel.cpp:1074-1086 | sigma squared at the Bias variance and at every entry of the PassBiases block, on and off its diagonal; the cross terms are kept |
| ErrorModelModel.FillBlock | plugins/EstimationPlugin/src/base/errormodel/ErrorModel.cpp:1079-1086 | the double loop writes exactly the filled block and nothing else |
| ErrorModelModel.WithFilledBlock | plugins/EstimationPlugin/src/base/errormodel/ErrorModel.cpp:110-118 | entries inside the block get the diagonal or off-diagonal value, all others are kept |
| ErrorModelModel.ErrorModel.SetPassBias | plugins/EstimationPlugin/src/base/errormodel/ErrorModel.cpp:1170-1205 | an index in [0, size) overwrites that pass bias; index == size appends and the covariance becomes the old one grown by a zero row and column at its end; any other index is refused and changes nothing |
| ErrorModelModel.CopyBackBlock | plugins/EstimationPlugin/src/base/errormodel/ErrorModel.cpp:1193-1200 | the copy loop writes the saved block entries and nothing else |
| ErrorModelModel.ErrorModel.SetPassBiasStartEpoches | plugins/EstimationPlugin/src/base/errormodel/ErrorModel.cpp:1751-1755 | the start epoch list is replaced |
| ErrorModelModel.GrowPassBiases | plugins/EstimationPlugin/src/base/errormodel/ErrorModel.cpp:1186-1199 | the PassBiases element grows by one row and column: the old entries are kept and the new row and column are zero, with the element list otherwise unchanged |
| ErrorModelModel.WriteBiasVariances | plugins/EstimationPlugin/src/base/errormodel/ErrorModel.cpp:1075-1086 | the Bias variance and every entry of the PassBiases block become the squared sigma, nothing else changes |
| OscillatorModel.FormalDerivative | plugins/EstimationPlugin/src/base/hardware/Oscillator.cpp:1240-1253 | the derivative polynomial has one coefficient fewer, the k-th being (k+1) times the (k+1)-th coefficient |
| OscillatorModel.FormalDerivativeStep | plugins/EstimationPlugin/src/base/hardware/Oscillator.cpp:1245-1249 | one more coefficient adds one more term k * c[k] to the derivative polynomial |
| OscillatorModel.DerivSumIsDerivative | plugins/EstimationPlugin/src/base/hardware/Oscillator.cpp:1240-1253 | the drift-derivative sum of k * c[k] * t^(k-1) is the derivative polynomial evaluated at t |
| OscillatorModel.PolyZeroExtension | plugins/EstimationPlugin/src/base/hardware/Oscillator.cpp:600-619 | appending a zero coefficient leaves the frequency unchanged |
| OscillatorModel.PolyConstant | plugins/EstimationPlugin/src/base/hardware/Oscillator.cpp:104-105 | the default single coefficient gives a constant frequency equal to it |
| OscillatorModel.CoeffDerivative | plugins/EstimationPlugin/src/base/hardware/Oscillator.cpp:1303-1323 | the coefficient derivative has one entry per coefficient, entry k being 1e6 * t^k |
| OscillatorModel.CoeffDerivativeIsGradient | plugins/EstimationPlugin/src/base/hardware/Oscillator.cpp:1303-1323 | dotting the coefficient derivative with the coefficients gives 1e6 times the frequency, so it is the gradient of the linear map from coefficients to frequency |
| OscillatorModel.WithDiagonal | plugins/EstimationPlugin/src/base/hardware/Oscillator.cpp:494-499 | the matrix with only diagonal entry (i, i) replaced |
| OscillatorModel.WriteInitialVariances | plugins/EstimationPlugin/src/base/hardware/Oscillator.cpp:110-114 | the drift's diagonal entry becomes the squared drift sigma and each coefficient's diagonal entry its squared sigma, the off-diagonal entries staying zero |
| OscillatorModel.NewOscillatorCovariance | plugins/EstimationPlugin/src/base/hardware/Oscillator.cpp:107-108 | the drift and coefficient elements are added, each of size 1, owned by the oscillator, with a zero 2-by-2 matrix |
| OscillatorModel.Oscillator.constructor | plugins/EstimationPlugin/src/base/hardware/Oscillator.cpp:82-120 | drift 0 with sigma 1e35, one coefficient equal to the transmitter frequency with sigma 1e35, the Taylor model, epoch "21545" TAIModJulian, and a covariance whose diagonal holds the squared sigmas |
| OscillatorModel.Oscillator.GetFrequencyAt | plugins/EstimationPlugin/src/base/hardware/Oscillator.cpp:1183-1195 | the running-power loop yields the polynomial in (atTime - initial epoch) + drift |
| OscillatorModel.Oscillator.GetFrequency | plugins/EstimationPlugin/src/base/hardware/Oscillator.cpp:1158-1170 | the polynomial at the current epoch |
| OscillatorModel.Oscillator.GetFrequencyDriftDerivativeAt | plugins/EstimationPlugin/src/base/hardware/Oscillator.cpp:1240-1253 | the loop from k = 1 yields 1e6 times the derivative sum, the derivative of the frequency polynomial |
| OscillatorModel.Oscillator.GetFrequencyDriftDerivative | plugins/EstimationPlugin/src/base/hardware/Oscillator.cpp:1209-1224 | the same at the current epoch |
| OscillatorModel.Oscillator.GetCoefficientsDerivativeAt | plugins/EstimationPlugin/src/base/hardware/Oscillator.cpp:1303-1323 | the two loops (powers, then scaling by 1e6) yield exactly the coefficient derivative |
| OscillatorModel.Oscillator.GetCoefficientsDerivative | plugins/EstimationPlugin/src/base/hardware/Oscillator.cpp:1267-1287 | the same at the current epoch |
| OscillatorModel.Oscillator.SetFrequencyDrift | plugins/EstimationPlugin/src/base/hardware/Oscillator.cpp:485-491 | any drift, negative included, is stored and returned; nothing else changes |
| OscillatorModel.Oscillator.SetFrequencyDriftNoiseSigma | plugins/EstimationPlugin/src/base/hardware/Oscillator.cpp:493-502 | succeeds iff the sigma is non-negative, and then stores it and writes its square at the drift's diagonal entry only; a negative sigma changes nothing |
| OscillatorModel.Oscillator.CoefficientAt | plugins/EstimationPlugin/src/base/hardware/Oscillator.cpp:564-569 | succeeds iff the index is inside the coefficients, and then yields that coefficient |
| OscillatorModel.Oscillator.SigmaAt | plugins/EstimationPlugin/src/base/hardware/Oscillator.cpp:571-576 | as written: the index is checked against the sigmas but the result is the coefficient at that index |
| OscillatorModel.Oscillator.SetCoefficient | plugins/EstimationPlugin/src/base/hardware/Oscillator.cpp:604-619 | an index inside the list overwrites, index == size appends, any other index fails and changes nothing |
| OscillatorModel.Oscillator.SetCoefficientSigma | plugins/EstimationPlugin/src/base/hardware/Oscillator.cpp:621-651 | overwrite or append the sigma; the square goes on the coefficient block's diagonal; an append first grows the block by one zero row and column when it is smaller than the sigma list; any other index fails with nothing changed |
| OscillatorModel.Oscillator.WriteCoeffVariance | plugins/EstimationPlugin/src/base/hardware/Oscillator.cpp:625-626 | the write at (start + i, start + i) succeeds iff i is inside the coefficient block and changes only that entry |
| OscillatorModel.Oscillator.GrowCoeffBlock | plugins/EstimationPlugin/src/base/hardware/Oscillator.cpp:637-643 | the coefficient block grows by one, a zero row and column appended at the end of the matrix |
| OscillatorModel.Oscillator.SetCoefficients | plugins/EstimationPlugin/src/base/hardware/Oscillator.cpp:739-744 | the coefficient vector is replaced whole, the sigmas kept |
| OscillatorModel.Oscillator.SetSigmas | plugins/EstimationPlugin/src/base/hardware/Oscillator.cpp:745-751 | the sigma vector is replaced whole, the coefficients kept |
| OscillatorModel.Oscillator.SetSolveFor | plugins/EstimationPlugin/src/base/hardware/Oscillator.cpp:882-915 | an empty list clears the solve-fors; otherwise it succeeds iff the value is FrequencyDrift or FrequencyPolynomialCoefficients and not yet listed, and then appends it |
| OscillatorModel.Oscillator.SetEpoch | plugins/EstimationPlugin/src/base/hardware/Oscillator.cpp:1097-1116 | the current epoch is always stored; no coefficients or the Fourier model fail; with the Taylor model the frequency becomes the polynomial at that epoch |
| OscillatorModel.Oscillator.Initialize | plugins/EstimationPlugin/src/base/hardware/Oscillator.cpp:1025-1083 | unequal coefficient and sigma counts fail; empty lists default to the transmitter frequency with sigma 1e35; bad epoch type or text fails; otherwise the epoch is set and the frequency is the polynomial at the drift; as written the result is false on every path |
| OscillatorModel.Oscillator.ReplaceSigma | plugins/EstimationPlugin/src/base/hardware/Oscillator.cpp:622-627 | an index inside the sigma list overwrites that sigma and puts its square on the coefficient block's diagonal when the block reaches that row, failing otherwise |
| OscillatorModel.Oscillator.AppendSigma | plugins/EstimationPlugin/src/base/hardware/Oscillator.cpp:628-646 | an index just past the list appends the sigma; the coefficient block first grows by a zero row and column when it is smaller than the new list; the square then goes on the new diagonal entry |
| OscillatorModel.NewDriftCovariance | plugins/EstimationPlugin/src/base/hardware/Oscillator.cpp:107 | a fresh covariance with the drift element alone, of size 1, holding a zero |
| OscillatorModel.WriteDriftVariance | plugins/EstimationPlugin/src/base/hardware/Oscillator.cpp:110-111 | the drift's diagonal entry becomes the squared drift sigma, everything else stays zero |
| PropagationStateManagerModel.PropagationStateManager.SetObject | src/base/propagator/PropagationStateManager.cpp:190-233 | an object already managed is refused with nothing changed; otherwise it is appended with its epoch id (A1Epoch for a formation, Epoch when real-valued, else A1Epoch), becomes current and starts with its default property list |
| PropagationStateManagerModel.PropagationStateManager.RemoveObject | src/base/propagator/PropagationStateManager.cpp:247-272 | true exactly when the object is managed; then the first match, its epoch id and its property list are removed and the first remaining object (or none) becomes current; otherwise nothing changes |
| PropagationStateManagerModel.IndexOfObject | src/base/propagator/PropagationStateManager.cpp:252-269 | the search loop stops at the first match, or at the end when the object is absent |
| PropagationStateManagerModel.PropagationStateManager.AddProperty | src/base/propagator/PropagationStateManager.cpp:296-322 | an unknown property is an error with the list unchanged; a known one is added to the object's list only if it is not there yet |
| PropagationStateManagerModel.PropagationStateManager.SetProperty | src/base/propagator/PropagationStateManager.cpp:287-326 | false with no current object; an error for a property the current object does not know (the tank message for MassFlow); otherwise the property is in the current object's list once |
| PropagationStateManagerModel.PropagationStateManager.SetPropertyAt | src/base/propagator/PropagationStateManager.cpp:342-377 | an index outside the object list is an error; otherwise as SetProperty for that object |
| PropagationStateManagerModel.PropagationStateManager.SetPropertyFor | src/base/propagator/PropagationStateManager.cpp:393-427 | an object that is not managed is an error; otherwise as SetProperty for that object |
| PropagationStateManagerModel.PropagationStateManager.ObjectEpochsMatch | src/base/propagator/PropagationStateManager.cpp:900-956 | true exactly when every object's epoch lies within 5e-11 of the first object's (difference in seconds with precision time, in days otherwise) |
| PropagationStateManagerModel.EpochsMatchPairwise | src/base/propagator/PropagationStateManager.cpp:900-956 | matching epochs are pairwise within twice the tolerance |
| PropagationStateManagerModel.PrecisionCheckIsStricter | src/base/propagator/PropagationStateManager.cpp:912-945 | epochs that pass the precision-time check (seconds) also pass the check in days |
| PropagationStateManagerModel.PropagationStateManager.GetSTMIndex | src/base/propagator/PropagationStateManager.cpp:1020-1040 | the first STM row whose id matches and whose object matches (any object when none is given), or -1 when there is none |
| PropagationStateManagerModel.PropagationStateManager.SortVector | src/base/propagator/PropagationStateManager.cpp:1053-1292 | the result, state size, state map and STM row map are those of LayoutOf for the managed objects' property lists; on an error the layout is left as it was |
| PropagationStateManagerModel.ComputeLayout | src/base/propagator/PropagationStateManager.cpp:1094-1267 | both loops of SortVector compute LayoutOf; the object current afterwards is the last managed one |
| PropagationStateManagerModel.LayoutMeaning | src/base/propagator/PropagationStateManager.cpp:1094-1150 | SortVector fails exactly when some listed property is unknown or has size <= 0; otherwise the state size is the sum of all property sizes and the state map has one item per state entry |
| PropagationStateManagerModel.LayoutIsStableSort | src/base/propagator/PropagationStateManager.cpp:1094-1267 | the state map lists every entry exactly once, ordered by a stable sort on element id: ids never decrease, and equal ids keep their listing order |
| PropagationStateManagerModel.AllEntriesMeaning | src/base/propagator/PropagationStateManager.cpp:1094-1150 | collecting all objects' entries fails exactly when some listed property is invalid; otherwise there is one entry per unit of size |
| PropagationStateManagerModel.ObjectEntriesMeaning | src/base/propagator/PropagationStateManager.cpp:1099-1149 | one object's entries fail exactly when one of its properties is unknown or has size <= 0; otherwise their number is the sum of its property sizes |
| PropagationStateManagerModel.PropEntries | src/base/propagator/PropagationStateManager.cpp:1102-1123 | an unknown property and a size <= 0 are errors with GMAT's messages; otherwise size identical entries |
| PropagationStateManagerModel.CollectEntries | src/base/propagator/PropagationStateManager.cpp:1094-1150 | the first loop of SortVector produces exactly the entries of AllEntries (or its error) and their ordering |
| PropagationStateManagerModel.CollectObject | src/base/propagator/PropagationStateManager.cpp:1099-1149 | the loop over one object's properties produces its entries (or the first error) and extends the ordering |
| PropagationStateManagerModel.CollectProperty | src/base/propagator/PropagationStateManager.cpp:1117-1148 | one property adds size copies of its entry, each inserted into the ordering |
| PropagationStateManagerModel.InsertPosition | src/base/propagator/PropagationStateManager.cpp:1126-1145 | the insertion point lies after every entry whose id is <= the new id and before the first strictly greater one |
| PropagationStateManagerModel.InsertInOrder | src/base/propagator/PropagationStateManager.cpp:1125-1147 | the ordering loop inserts the new entry at InsertPosition, or appends it |
| PropagationStateManagerModel.InsertPositionIs | src/base/propagator/PropagationStateManager.cpp:1128-1145 | the insert position is the first index whose id is strictly greater |
| PropagationStateManagerModel.OrderIsStableSort | src/base/propagator/PropagationStateManager.cpp:1094-1150 | the ordering lists every entry index exactly once and is a stable sort by element id |
| PropagationStateManagerModel.OrderStep | src/base/propagator/PropagationStateManager.cpp:1125-1147 | inserting the newest entry keeps the ordering a stable sort of all entries so far |
| PropagationStateManagerModel.Counter | src/base/propagator/PropagationStateManager.cpp:1184-1264 | the sub-element counter is always at least 1 |
| PropagationStateManagerModel.CounterCycles | src/base/propagator/PropagationStateManager.cpp:1184-1264 | over items of one length m the counter runs 1, 2, ..., m and restarts at 1 |
| PropagationStateManagerModel.MakeItem | src/base/propagator/PropagationStateManager.cpp:1174-1222 | an item keeps its entry's owner, name, id and length; a vector's row is val - 1; a matrix's column lies in 0..rowLength-1; other types have no row or column |
| PropagationStateManagerModel.MakeItemRowMajor | src/base/propagator/PropagationStateManager.cpp:1216-1222 | a matrix sub-element val sits at row-major position val - 1 = row * rowLength + col |
| PropagationStateManagerModel.StateMapAt | src/base/propagator/PropagationStateManager.cpp:1166-1184 | item i of the state map is built from the ordered entry i with the running counter |
| PropagationStateManagerModel.StateMapDescribes | src/base/propagator/PropagationStateManager.cpp:1174-1183 | item i of the state map has the owner, property, id and length of entry order[i] |
| PropagationStateManagerModel.StateMapSorted | src/base/propagator/PropagationStateManager.cpp:1166-1183 | along a sorted ordering the element ids of the state map never decrease |
| PropagationStateManagerModel.BuildStateMap | src/base/propagator/PropagationStateManager.cpp:1152-1267 | the second loop of SortVector builds exactly the state map and the STM row map of the ordering |
| PropagationStateManagerModel.NextStateItem | src/base/propagator/PropagationStateManager.cpp:1174-1266 | one pass numbers the next entry, adds its STM row when it starts a row of the orbit STM, and restarts the counter at the end of the element |
| PropagationStateManagerModel.StmRowsAppend | src/base/propagator/PropagationStateManager.cpp:1229-1239 | a new item adds an STM row exactly when it is the orbit STM at row 0 |
| PropagationStateManagerModel.StateMapFits | src/base/propagator/PropagationStateManager.cpp:1216-1239 | every matrix column index names one of its owner's STM row ids |
| PropagationStateManagerModel.Symmetrize | src/base/propagator/PropagationStateManager.cpp:1770-1787 | a non-square matrix is refused and left unchanged; otherwise each mirrored pair becomes the old average, in place |
| PropagationStateManagerModel.AverageRow | src/base/propagator/PropagationStateManager.cpp:1781-1785 | the inner loop averages row i with column i to the right of the diagonal |
| PropagationStateManagerModel.SymmetrizeResult | src/base/propagator/PropagationStateManager.cpp:1770-1787 | the symmetrized matrix is symmetric and keeps the old diagonal |
| PropagatorModel.Propagator.constructor | src/base/propagator/Propagator.cpp:137-150 | a new propagator has a 60 s step and buffer, no noise step or countdown, a pending reset, and no final step |
| PropagatorModel.Propagator.GetRealParameter | src/base/propagator/Propagator.cpp:402-416 | the initial step size reads the buffer, the noise step and the countdown read their fields, and other ids go to the base class |
| PropagatorModel.Propagator.SetRealParameter | src/base/propagator/Propagator.cpp:435-460 | an initial step within 1e-4 of zero is refused and changes nothing; otherwise it sets only the buffer; ProcessNoiseTimeStep sets both the noise step and the countdown; TimeToNextNoiseStep sets the countdown alone |
| PropagatorModel.Propagator.ResetInitialData | src/base/propagator/Propagator.cpp:832-835 | only the reset flag is raised |
| PropagatorModel.Propagator.Update | src/base/propagator/Propagator.cpp:802-823 | after a reset the step is reloaded from the buffer and the flag cleared; otherwise only the sign of the step changes, so that a nonzero step propagates in the requested direction |
| PropagatorModel.Directed | src/base/propagator/Propagator.cpp:1169-1173 | the directed value keeps the magnitude and, when nonzero, is positive exactly when forwards is asked |
| PropagatorModel.DirectedIdempotent | src/base/propagator/Propagator.cpp:1169-1173 | setting the direction twice equals setting the last direction once |
| PropagatorModel.Propagator.SetForwardPropagation | src/base/propagator/Propagator.cpp:1154-1173 | only the signs of the step and of the buffer change, magnitudes are kept, and a nonzero step then propagates forwards exactly when asked (PropagatesForward is stepSize > 0) |
| PropagatorModel.Propagator.IsValidEpoch | src/base/propagator/Propagator.cpp:1225-1242 | true with no spans loaded, otherwise true exactly when start < t <= end for some span |
| PropagatorModel.Propagator.Step | src/base/propagator/Propagator.cpp:1260-1271 | before initialization it returns false and changes nothing; otherwise the step size becomes dt and the derived step's result is returned |
| PropagatorModel.Propagator.RawStep | src/base/propagator/Propagator.cpp:1305-1315 | the raw step's result is returned and the step size, buffer and noise schedule are as before |
| PropagatorModel.Propagator.FindTimeStep | src/base/propagator/Propagator.cpp:1529-1574 | always returns true, and the step fields follow the noise schedule NextNoiseStep |
| PropagatorModel.NoiseClockKeepsUpdateTime | src/base/propagator/Propagator.cpp:1529-1574 | with no noise step nothing changes; while the update is beyond the step, the buffered step plus the remaining countdown equals the old countdown; once it is within the step the countdown restarts at the noise step; buffer and noise step never change |
| PropagatorModel.NoiseStepEndsAtUpdate | src/base/propagator/Propagator.cpp:1563-1572 | when the update falls inside the step and is not met within 1e-6, the next step is exactly the countdown and no longer than the old step |
| PropagatorModel.NoiseSteps | src/base/propagator/Propagator.cpp:1598-1604 | the update steps of the noise models are at most one per object |
| PropagatorModel.NoiseStepsPrefix | src/base/propagator/Propagator.cpp:1598-1604 | the update steps collected from the first objects are a prefix of those collected from all objects |
| PropagatorModel.PrefixDisagreement | src/base/propagator/Propagator.cpp:1605-1611 | a disagreement among the first objects' update steps is a disagreement among all of them |
| PropagatorModel.LastAgreesWithAll | src/base/propagator/Propagator.cpp:1605-1611 | true exactly when the newest update step equals every collected step |
| PropagatorModel.ScanNoiseSteps | src/base/propagator/Propagator.cpp:1598-1616 | succeeds exactly when all noise models agree, and reports the first collected step, if any |
| PropagatorModel.Propagator.SetNoiseStep | src/base/propagator/Propagator.cpp:1586-1623 | returns false exactly when two noise models have different update steps; with at least one model the noise step and the countdown become the first model's step signed like the current step, otherwise they are unchanged; the step and the buffer are never touched |
| SeqEstimatorModel.GetParameterID | plugins/ExtendedKalmanFilterPlugin/src/base/EKF/SeqEstimator.cpp:275-288 | "MaximumIterations" is refused; a name of the estimator's own table maps to its position there; any other name goes to the base estimator |
| SeqEstimatorModel.ParameterIdRoundTrip | plugins/ExtendedKalmanFilterPlugin/src/base/EKF/SeqEstimator.cpp:239-244 | the text of each own id maps back to that id |
| SeqEstimatorModel.SeqEstimator.constructor | plugins/ExtendedKalmanFilterPlugin/src/base/EKF/SeqEstimator.cpp:121-137 | a new estimator has no noise step or delayed rectification, deweighting threshold 1 and coefficient 0, editing multiplier 3, no anchor epoch, and overwrites edit flags |
| SeqEstimatorModel.SeqEstimator.SetRealParameter | plugins/ExtendedKalmanFilterPlugin/src/base/EKF/SeqEstimator.cpp:422-478 | the noise step, the delayed-rectification span and both deweighting values are accepted exactly when non-negative, the editing multiplier exactly when positive; an accepted value replaces only its own setting, a refused one changes nothing, other ids go to the base estimator |
| SeqEstimatorModel.SeqEstimator.AdvanceState | plugins/ExtendedKalmanFilterPlugin/src/base/EKF/SeqEstimator.cpp:673-740 | the new state, the prediction flag and the answer are those of one step of Advanced: the handler of the current state (CompleteInitialization, FindTimeStep, Estimate and RunComplete leave the state given as input; CalculateData, ProcessEvent and CheckCompletion as below), then StateCleanUp; any other state is an error that changes nothing; after CheckCompletion the state is FINISHED with one more iteration, and a .mat failure there is an error |
| SeqEstimatorModel.AdvancedPrediction | plugins/ExtendedKalmanFilterPlugin/src/base/EKF/SeqEstimator.cpp:673-756 | a step never stops a prediction; it starts one exactly when the handler leaves CHECKINGRUN and there is an anchor epoch or a prediction span; the step out of CHECKINGRUN always answers FINISHED and keeps the prediction flag, because CheckCompletion sets FINISHED before the clean-up looks |
| SeqEstimatorModel.PredictionPersists | plugins/ExtendedKalmanFilterPlugin/src/base/EKF/SeqEstimator.cpp:749-756 | once predicting, every later state of a run of AdvanceState calls is still predicting |
| SeqEstimatorModel.NoPredictionWithoutSpan | plugins/ExtendedKalmanFilterPlugin/src/base/EKF/SeqEstimator.cpp:749-756 | without an anchor epoch or a prediction span a run never starts predicting |
| SeqEstimatorModel.SeqEstimator.StateCleanUp | plugins/ExtendedKalmanFilterPlugin/src/base/EKF/SeqEstimator.cpp:749-803 | a run in CHECKINGRUN with an anchor epoch or a prediction span that is not yet predicting starts predicting and takes the state FindTimeStep chooses; otherwise nothing changes |
| SeqEstimatorModel.SeqEstimator.TakeAction | plugins/ExtendedKalmanFilterPlugin/src/base/EKF/SeqEstimator.cpp:818-847 | RunBackwards and RunForwards restart at INITIALIZING with smoothing and measurement direction set accordingly; UseProvidedFlags clears overwriteEditFlags; other actions go to the base estimator |
| SeqEstimatorModel.SeqEstimator.CalculateData | plugins/ExtendedKalmanFilterPlugin/src/base/EKF/SeqEstimator.cpp:1680-1699 | with calculated measurements and pending events the state becomes LOCATING and an event is being located; otherwise ESTIMATING |
| SeqEstimatorModel.SeqEstimator.ProcessEvent | plugins/ExtendedKalmanFilterPlugin/src/base/EKF/SeqEstimator.cpp:1712-1744 | an event is still being located exactly when some active event is not located; only when all are located does the state become ESTIMATING |
| SeqEstimatorModel.SeqEstimator.CheckCompletion | plugins/ExtendedKalmanFilterPlugin/src/base/EKF/SeqEstimator.cpp:1759-1781 | the iteration count grows by one and the state becomes FINISHED |
| SeqEstimatorModel.BinarySearchEpoch | plugins/ExtendedKalmanFilterPlugin/src/base/EKF/SeqEstimator.cpp:3450-3476 | an epoch found is within the tolerance of the target; on ascending epochs one is found whenever one exists |
| SeqEstimatorModel.VerifySmoothTimeStep | plugins/ExtendedKalmanFilterPlugin/src/base/EKF/SeqEstimator.cpp:3450-3476 | true only if some forward epoch equals the current epoch within the tolerance, and on ascending epochs exactly then |
| SeqEstimatorModel.RunStart | plugins/ExtendedKalmanFilterPlugin/src/base/EKF/SeqEstimator.cpp:3517-3529 | the rewound index is at most the found one, every step back joins two epochs equal within the tolerance, and the epoch before it is not equal to it |
| SeqEstimatorModel.RewindRun | plugins/ExtendedKalmanFilterPlugin/src/base/EKF/SeqEstimator.cpp:3517-3529 | the rewind loop stops at the start of the run of equal epochs |
| SeqEstimatorModel.MatchSmoothTimeStep | plugins/ExtendedKalmanFilterPlugin/src/base/EKF/SeqEstimator.cpp:3491-3533 | on ascending epochs, no match for the back filter's last epoch is an error; an answer is (epoch before the run of the matched epoch - current epoch) in seconds; a run starting at index 0 is an error because index -1 is read |
| SeqEstimatorModel.WalkFrom | plugins/ExtendedKalmanFilterPlugin/src/base/EKF/SeqEstimator.cpp:2273-2293 | a successful walk of the state map has one slot per position left |
| SeqEstimatorModel.WalkFits | plugins/ExtendedKalmanFilterPlugin/src/base/EKF/SeqEstimator.cpp:2273-2293 | each slot of the walk lies inside the 6x6 block of a CartesianState entry at its own offset, or on the diagonal |
| SeqEstimatorModel.WriteBlock | plugins/ExtendedKalmanFilterPlugin/src/base/EKF/SeqEstimator.cpp:2279-2286 | the 6x6 block is written at (i, i) and nothing else changes |
| SeqEstimatorModel.CovarianceConversionMatrix | plugins/ExtendedKalmanFilterPlugin/src/base/EKF/SeqEstimator.cpp:2263-2298 | fails exactly when a CartesianState block would run past the end; otherwise the n-by-n result holds each CartesianState's conversion block on the diagonal at its position, 1 at other diagonal positions and 0 elsewhere |
| SeqEstimatorModel.NoCartesianIsDiagonal | plugins/ExtendedKalmanFilterPlugin/src/base/EKF/SeqEstimator.cpp:2273-2293 | a state map without CartesianState entries lays out only diagonal positions |
| SeqEstimatorModel.NoCartesianIsIdentity | plugins/ExtendedKalmanFilterPlugin/src/base/EKF/SeqEstimator.cpp:2273-2293 | without CartesianState entries the conversion matrix is the identity |
| SeqEstimatorModel.ConversionIsBlockDiagonal | plugins/ExtendedKalmanFilterPlugin/src/base/EKF/SeqEstimator.cpp:2263-2298 | every nonzero entry lies on the diagonal or inside one CartesianState block |
| SeqEstimatorModel.DataFilter | plugins/ExtendedKalmanFilterPlugin/src/base/EKF/SeqEstimator.cpp:2357-2389 | the observation is marked unused with reason "SIG" exactly when some component's residual after the offset term reaches constMult times its sigma, otherwise it is untouched; the answer is whether it is still in use |
| ExtendedKalmanFilterModel.GramIsSymmetric | plugins/ExtendedKalmanFilterPlugin/src/base/EKF/ExtendedKalmanFilter.cpp:867-889 | the covariance rebuilt from a factor as S times its transpose is symmetric |
| ExtendedKalmanFilterModel.DotCommutes | plugins/ExtendedKalmanFilterPlugin/src/base/EKF/ExtendedKalmanFilter.cpp:867 | the row products that make up S times its transpose commute |
| ExtendedKalmanFilterModel.SqrtCovarianceEpsilonConversion | plugins/ExtendedKalmanFilterPlugin/src/base/EKF/ExtendedKalmanFilter.cpp:1346-1356 | the array afterwards holds the old factor with row i of its lower triangle (columns 0..i) multiplied by conversion i and every entry above the diagonal unchanged |
| ExtendedKalmanFilterModel.EpsilonScaledTriangle | plugins/ExtendedKalmanFilterPlugin/src/base/EKF/ExtendedKalmanFilter.cpp:1348-1355 | in the converted factor, entry (i, j) with j <= i is the old entry times conversion i, and entries above the diagonal are the old ones |
| ExtendedKalmanFilterModel.RenominalizeRows | plugins/ExtendedKalmanFilterPlugin/src/base/EKF/ExtendedKalmanFilter.cpp:1313-1329 | the rows of the lower triangle whose conversion changed are multiplied by prev[i] / conv[i], all other entries are kept, and the flag is set exactly when some state's conversion changed |
| ExtendedKalmanFilterModel.ScaleRowPrefix | plugins/ExtendedKalmanFilterPlugin/src/base/EKF/ExtendedKalmanFilter.cpp:1319-1327 | entries 0..i of row i are multiplied by the factor and every other entry is kept |
| ExtendedKalmanFilterModel.RenominalizedKeepsReported | plugins/ExtendedKalmanFilterPlugin/src/base/EKF/ExtendedKalmanFilter.cpp:1301-1333 | renominalizing and then converting with the new conversions reports the same factor as converting the old factor with the previous conversions |
| ExtendedKalmanFilterModel.TriClosedForm | plugins/ExtendedKalmanFilterPlugin/src/base/EKF/ExtendedKalmanFilter.cpp:1114-1124 | the lower triangle of an n-by-n factor has n(n+1)/2 entries |
| ExtendedKalmanFilterModel.TriMonotone | plugins/ExtendedKalmanFilterPlugin/src/base/EKF/ExtendedKalmanFilter.cpp:1180-1190 | a larger factor has a longer packed triangle |
| ExtendedKalmanFilterModel.TriRowFits | plugins/ExtendedKalmanFilterPlugin/src/base/EKF/ExtendedKalmanFilter.cpp:1180-1190 | row i's entries 0..i lie before the end of the packed triangle |
| ExtendedKalmanFilterModel.PackedCount | plugins/ExtendedKalmanFilterPlugin/src/base/EKF/ExtendedKalmanFilter.cpp:1114-1124 | the record written for an n-state factor holds n(n+1)/2 values |
| ExtendedKalmanFilterModel.PackLowerAt | plugins/ExtendedKalmanFilterPlugin/src/base/EKF/ExtendedKalmanFilter.cpp:1114-1124 | entry (i, j) with j <= i is written at position i(i+1)/2 + j, scaled by conversion i |
| ExtendedKalmanFilterModel.ScaledRowAppend | plugins/ExtendedKalmanFilterPlugin/src/base/EKF/ExtendedKalmanFilter.cpp:1117-1123 | writing one more entry of a row appends that entry times the row's conversion |
| ExtendedKalmanFilterModel.WriteLowerTriangle | plugins/ExtendedKalmanFilterPlugin/src/base/EKF/ExtendedKalmanFilter.cpp:1114-1124 | the values written are the rows of the lower triangle in order, each entry times its row's conversion |
| ExtendedKalmanFilterModel.DiffersFromIdentity | plugins/ExtendedKalmanFilterPlugin/src/base/EKF/ExtendedKalmanFilter.cpp:1087-1102 | the flag is set exactly when dX/dS differs from the identity in some entry |
| ExtendedKalmanFilterModel.ReadRow | plugins/ExtendedKalmanFilterPlugin/src/base/EKF/ExtendedKalmanFilter.cpp:1182-1189 | entries 0..i of row i are read from consecutive values of the record and nothing else changes |
| ExtendedKalmanFilterModel.ReadLowerTriangle | plugins/ExtendedKalmanFilterPlugin/src/base/EKF/ExtendedKalmanFilter.cpp:1177-1190 | the file's factor holds, in row i and column j <= i, the value at position first + i(i+1)/2 + j and zeros above the diagonal |
| ExtendedKalmanFilterModel.MapFileRow | plugins/ExtendedKalmanFilterPlugin/src/base/EKF/ExtendedKalmanFilter.cpp:1199-1213 | row i of the factor receives, for each mapped column j <= i, the file entry at the two states' columns divided by conversion i, when state i is mapped, and nothing else changes |
| ExtendedKalmanFilterModel.MapFileFactor | plugins/ExtendedKalmanFilterPlugin/src/base/EKF/ExtendedKalmanFilter.cpp:1195-1214 | the factor is the file's factor mapped onto the solve-for states and divided by the row conversions, zero where a state is not in the file or above the diagonal |
| ExtendedKalmanFilterModel.AlignedEntryRecovers | plugins/ExtendedKalmanFilterPlugin/src/base/EKF/ExtendedKalmanFilter.cpp:1206-1210 | a file entry equal to x times conversion i is read back as x |
| ExtendedKalmanFilterModel.MappedEntryAligned | plugins/ExtendedKalmanFilterPlugin/src/base/EKF/ExtendedKalmanFilter.cpp:1206-1210 | when both states sit in their own columns, the mapped entry is the file's entry divided by the row's conversion |
| ExtendedKalmanFilterModel.UnpackedAt | plugins/ExtendedKalmanFilterPlugin/src/base/EKF/ExtendedKalmanFilter.cpp:1180-1190 | the triangle read back holds at (i, j) the value at position first + i(i+1)/2 + j |
| ExtendedKalmanFilterModel.PackedAfterPrefix | plugins/ExtendedKalmanFilterPlugin/src/base/EKF/ExtendedKalmanFilter.cpp:1114-1124 | after any leading columns, entry (i, j) of the triangle sits at the expected offset, scaled by conversion i |
| ExtendedKalmanFilterModel.UnpackedHoldsScaled | plugins/ExtendedKalmanFilterPlugin/src/base/EKF/ExtendedKalmanFilter.cpp:1177-1190 | reading back a written record gives each lower-triangle entry times its row's conversion |
| ExtendedKalmanFilterModel.ScaledLowerMapsBack | plugins/ExtendedKalmanFilterPlugin/src/base/EKF/ExtendedKalmanFilter.cpp:1195-1214 | dividing the conversions back out of an aligned file factor gives the lower triangle of the factor that was written |
| ExtendedKalmanFilterModel.ReadInvertsWrite | plugins/ExtendedKalmanFilterPlugin/src/base/EKF/ExtendedKalmanFilter.cpp:1114-1124 | reading what WriteCovarianceToDataFile wrote, with the file's states in the filter's order, gives back the lower triangle of the factor |
| ExtendedKalmanFilterModel.IdentityColumnsInRange | plugins/ExtendedKalmanFilterPlugin/src/base/EKF/ExtendedKalmanFilter.cpp:1206-1207 | when the file's states are the filter's in order, every mapped column is inside the file's factor |
| ExtendedKalmanFilterModel.AlignedPrefix | plugins/ExtendedKalmanFilterPlugin/src/base/EKF/ExtendedKalmanFilter.cpp:1164-1174 | the aligned index is the last k such that states 0..k sit in the file's first state columns in order, -1 when state 0 does not |
| ExtendedKalmanFilterModel.CopyFullFactorRows | plugins/ExtendedKalmanFilterPlugin/src/base/EKF/ExtendedKalmanFilter.cpp:1247-1249 | rows from the aligned index on take their entries on and right of the diagonal from the full factor, every other entry is kept |
| ExtendedKalmanFilterModel.AddInto | plugins/ExtendedKalmanFilterPlugin/src/base/EKF/ExtendedKalmanFilter.cpp:836-857 | the state afterwards is the old state plus the correction, entry by entry |
| ExtendedKalmanFilterModel.DeferredCorrectionsAgree | plugins/ExtendedKalmanFilterPlugin/src/base/EKF/ExtendedKalmanFilter.cpp:836-847 | collecting corrections in a zero offset and adding the offset to the state once gives the state that adding each correction directly would give |
| ExtendedKalmanFilterModel.NoiseUpdateFollowsRun | plugins/ExtendedKalmanFilterPlugin/src/base/EKF/ExtendedKalmanFilter.cpp:1019-1027 | the noise epoch only moves in the direction of the run, and when it moves it moves by exactly one noise step |
| ExtendedKalmanFilterModel.DeweightScaleSquares | plugins/ExtendedKalmanFilterPlugin/src/base/EKF/ExtendedKalmanFilter.cpp:765-771 | the deweighting scale is at least 1, and its square is 1 + coefficient exactly when the position sigma exceeds the threshold and the coefficient is positive, 1 otherwise |
| ExtendedKalmanFilterModel.ArrayOf | plugins/ExtendedKalmanFilterPlugin/src/base/EKF/ExtendedKalmanFilter.cpp:1195 | a fresh array holds the given matrix |
| ExtendedKalmanFilterModel.FindColumn | plugins/ExtendedKalmanFilterPlugin/src/base/EKF/ExtendedKalmanFilter.cpp:1145-1155 | the covariance column is the first header equal to SqrtCovariance_1_1, and absent exactly when no header is |
| ExtendedKalmanFilterModel.BuildReadFactor | plugins/ExtendedKalmanFilterPlugin/src/base/EKF/ExtendedKalmanFilter.cpp:1141-1250 | a header without SqrtCovariance_1_1 goes to the base reader; covariance columns before the state columns, a row shorter than the triangle and a mapped column outside the file's factor are errors; otherwise the factor is the mapped file factor completed from the full factor, with the aligned index of the file's state columns |
| ExtendedKalmanFilterModel.FactorFromRecordRows | plugins/ExtendedKalmanFilterPlugin/src/base/EKF/ExtendedKalmanFilter.cpp:1177-1250 | the factor built is the file's triangle mapped onto the solve-for states, with the rows after the aligned prefix filled from the full factor |
| ExtendedKalmanFilterModel.ExtendedKalmanFilter.constructor | plugins/ExtendedKalmanFilterPlugin/src/base/EKF/ExtendedKalmanFilter.cpp:58-69 | a new filter has no factor yet, no state offset and is initializing |
| ExtendedKalmanFilterModel.ExtendedKalmanFilter.EnsureFactor | plugins/ExtendedKalmanFilterPlugin/src/base/EKF/ExtendedKalmanFilter.cpp:1073-1078 | a factor is created from the covariance only when none is sized, otherwise it is kept; nothing else changes |
| ExtendedKalmanFilterModel.ExtendedKalmanFilter.CompleteInitialization | plugins/ExtendedKalmanFilterPlugin/src/base/EKF/ExtendedKalmanFilter.cpp:165-202 | a covariance of the wrong dimension fails with the size message and changes nothing; then the factor is ensured; a missing observation fails with the observation message; otherwise the factor converted with the epsilon conversions is reported |
| ExtendedKalmanFilterModel.ExtendedKalmanFilter.UpdateCovarianceNominalValues | plugins/ExtendedKalmanFilterPlugin/src/base/EKF/ExtendedKalmanFilter.cpp:1301-1333 | the factor (ensured first) is renominalized, and the covariance is rebuilt from it exactly when some conversion changed |
| ExtendedKalmanFilterModel.ExtendedKalmanFilter.WriteCovarianceToDataFile | plugins/ExtendedKalmanFilterPlugin/src/base/EKF/ExtendedKalmanFilter.cpp:1071-1125 | the values written are the packed, converted lower triangle of the factor, or of the Cartesian factor when dX/dS is not the identity |
| ExtendedKalmanFilterModel.ExtendedKalmanFilter.ReadCovarianceFromDataFile | plugins/ExtendedKalmanFilterPlugin/src/base/EKF/ExtendedKalmanFilter.cpp:1141-1289 | without a covariance header nothing changes and the base reader runs; a failed check changes nothing; a successful read sets the factor and rebuilds the covariance from it, converted to solve-for space and refactored when dX/dS is not the identity |
| ExtendedKalmanFilterModel.ExtendedKalmanFilter.UpdateElements | plugins/ExtendedKalmanFilterPlugin/src/base/EKF/ExtendedKalmanFilter.cpp:829-896 | a normal measurement adds the correction to the state offset when there is one and to the state otherwise, takes the updated factor and rebuilds the covariance from it; an edited one rebuilds the covariance from the current factor; the covariance is symmetric and becomes the information inverse |
| ExtendedKalmanFilterModel.ExtendedKalmanFilter.RectifyIfDue | plugins/ExtendedKalmanFilterPlugin/src/base/EKF/ExtendedKalmanFilter.cpp:981-1017 | when there is a state offset and the next measurement is more than the rectification span away from the estimation epoch, the offset is added to the state and cleared, otherwise nothing changes |
| ExtendedKalmanFilterModel.ExtendedKalmanFilter.AdvanceEpoch | plugins/ExtendedKalmanFilterPlugin/src/base/EKF/ExtendedKalmanFilter.cpp:971-1047 | at the end of the table the run is checked; otherwise the next measurement epoch is taken, a due rectification is done, the noise epoch is advanced per the direction of the run, and the filter propagates when the next epoch is at least 5.0e-12 |
| PlanetographicRegionModel.FirstDelim | src/base/solarsys/PlanetographicRegion.cpp:753 | the index found is at most the length, holds a delimiter when it is inside the text, and no earlier character is a delimiter |
| PlanetographicRegionModel.FirstDelimUnique | src/base/solarsys/PlanetographicRegion.cpp:753 | those three properties determine the first delimiter uniquely |
| PlanetographicRegionModel.PiecesWellFormed | src/base/solarsys/PlanetographicRegion.cpp:746-766 | every piece the split returns is non-empty and holds no delimiter |
| PlanetographicRegionModel.PiecesOfPlainText | src/base/solarsys/PlanetographicRegion.cpp:746-766 | text without a delimiter is returned whole, and empty text gives no pieces |
| PlanetographicRegionModel.PiecesSplitAt | src/base/solarsys/PlanetographicRegion.cpp:746-766 | the pieces of p, a delimiter and q are the pieces of p followed by those of q |
| PlanetographicRegionModel.PiecesSplitAtIndex | src/base/solarsys/PlanetographicRegion.cpp:746-766 | splitting distributes over any delimiter of the text, not only the first |
| PlanetographicRegionModel.PiecesIgnoreAbsent | src/base/solarsys/PlanetographicRegion.cpp:786-823 | delimiters that do not occur in the text do not change its pieces |
| PlanetographicRegionModel.FlatPiecesAppend | src/base/solarsys/PlanetographicRegion.cpp:806-820 | splitting each string of a concatenation of lists gives the concatenation of the results |
| PlanetographicRegionModel.PiecesCompose | src/base/solarsys/PlanetographicRegion.cpp:797-821 | splitting at the first half of the delimiters and then each piece at the second half gives exactly the pieces for all delimiters |
| PlanetographicRegionModel.ParseAtChar | src/base/solarsys/PlanetographicRegion.cpp:746-766 | the one-character Parse returns exactly the maximal non-empty delimiter-free runs of the input, in order, and nothing for empty input |
| PlanetographicRegionModel.NonEmptyOfWellFormed | src/base/solarsys/PlanetographicRegion.cpp:814-815 | keeping only non-empty strings leaves a list without empty strings unchanged |
| PlanetographicRegionModel.AppendNonEmpty | src/base/solarsys/PlanetographicRegion.cpp:811-816 | the inner loop appends exactly the non-empty strings of the sub-split, in order |
| PlanetographicRegionModel.ParseAtAny | src/base/solarsys/PlanetographicRegion.cpp:786-823 | the many-delimiter Parse returns the input alone for no delimiters and otherwise exactly the pieces for all delimiters together, whichever half is split first |
| PlanetographicRegionModel.AppendFittingKeepsTurn | src/base/solarsys/PlanetographicRegion.cpp:501-530 | accepting only longitudes that pass the check keeps all longitudes within 360 degrees of each other |
| PlanetographicRegionModel.ExtremeLongitudes | src/base/solarsys/PlanetographicRegion.cpp:508-520 | the scan returns a smallest and a largest longitude that both occur in the list |
| PlanetographicRegionModel.PlanetographicRegion.SetFilename | src/base/solarsys/PlanetographicRegion.cpp:210-237 | the name is stored first; a missing file and corner lists already given are errors, in that order; otherwise success, with the lists unchanged |
| PlanetographicRegionModel.PlanetographicRegion.SetLatitude | src/base/solarsys/PlanetographicRegion.cpp:487-500 | with a file named the call fails as a duplicate definition; a value outside [-90, 90] fails; otherwise the value is appended and returned, and nothing else changes |
| PlanetographicRegionModel.PlanetographicRegion.SetLongitude | src/base/solarsys/PlanetographicRegion.cpp:501-530 | with a file named the call fails; a value 360 degrees or more from any longitude so far fails; otherwise it is appended, and a list within one turn stays within one turn |
| PlanetographicRegionModel.FirstEdgeFaultPasses | src/base/solarsys/PlanetographicRegion.cpp:870-897 | the edge scan passes exactly when no edge from a given index on is bad |
| PlanetographicRegionModel.EdgeFaultIsBadEdge | src/base/solarsys/PlanetographicRegion.cpp:876-895 | an edge passes exactly when it neither runs pole to pole with a change of longitude nor joins a point to its antipode |
| PlanetographicRegionModel.CornerListCheckPasses | src/base/solarsys/PlanetographicRegion.cpp:857-898 | the corner list passes exactly when both lists are equally long with at least three corners and no edge, the closing one included, is bad |
| PlanetographicRegionModel.PlanetographicRegion.CheckLatitudeAndLongitudeList | src/base/solarsys/PlanetographicRegion.cpp:857-898 | the check reports the count mismatch first, then too few corners, then the first bad edge with its reason, and passes otherwise |
| PlanetographicRegionModel.SameSideOfAbNoCrossing | src/base/solarsys/PlanetographicRegion.cpp:1328-1358 | segments whose second endpoints lie strictly on one side of the first segment's line never count as crossing |
| PlanetographicRegionModel.SameSideOfCdNoCrossing | src/base/solarsys/PlanetographicRegion.cpp:1328-1358 | segments whose first endpoints lie strictly on one side of the second segment's line never count as crossing |
| PlanetographicRegionModel.EndOnLineNotCounted | src/base/solarsys/PlanetographicRegion.cpp:1350-1351 | an edge whose end lies on the test line is not counted, so a corner on the test segment is not counted twice |
| PlanetographicRegionModel.IntersectionIgnoresShift | src/base/solarsys/PlanetographicRegion.cpp:1328-1358 | moving all four points by the same offset changes neither the crossing result nor the distance |
| PlanetographicRegionModel.ProperCrossingIntersects | src/base/solarsys/PlanetographicRegion.cpp:1328-1358 | segments that cross properly, each with its endpoints strictly on opposite sides of the other's line, are always reported as crossing (with the two same-side lemmas, the test is exact away from touching and collinear cases) |
| PlanetographicRegionModel.CrossingCount | src/base/solarsys/PlanetographicRegion.cpp:1150-1172 | the number of crossing edges never exceeds the number of edges examined |
| PlanetographicRegionModel.LeastDistanceIsLeast | src/base/solarsys/PlanetographicRegion.cpp:1168-1171 | the tracked distance is at most the body radius and every edge's distance, and it is either the radius or one of those distances |
| PlanetographicRegionModel.VisibleCount | src/base/solarsys/PlanetographicRegion.cpp:1119-1133 | the number of corners on the point's side is at most the number of corners |
| PlanetographicRegionModel.WithinFromCrossings | src/base/solarsys/PlanetographicRegion.cpp:1071-1179 | with no corner on the point's side the point is outside at the body radius; otherwise it is inside exactly when the edge-crossing count is odd, and the least distance is negated exactly then |
| PlanetographicRegionModel.HandleRealParseError | src/base/solarsys/PlanetographicRegion.cpp:1278-1309 | the result is always an error whose message starts with the context, and the message grows exactly for the error codes -1 to -9 |
| PlanetographicRegionModel.ParseErrorReason | src/base/solarsys/PlanetographicRegion.cpp:1282-1305 | a code has a non-empty description exactly when it is one of -1 to -9 |
| CCSDSOEMReaderModel.IsValidVersion | src/gmatutil/util/CCSDSOEMReader.cpp:179-197 | version "1.0" is valid, "2.0" is valid exactly in testing mode and an error otherwise, and any other version is invalid |
| CCSDSOEMReaderModel.VersionLine | src/gmatutil/util/CCSDSOEMReader.cpp:259-305 | the first line is accepted exactly when its first word is CCSDS_OEM_VERS in any case, its second word is "=" and its third a valid version, which is returned |
| CCSDSOEMReaderModel.EqualSignAsWritten | src/gmatutil/util/CCSDSOEMReader.cpp:356-364 | the equal-sign check as written passes exactly when the kept second word is "=", which a line without a second word leaves unchanged |
| CCSDSOEMReaderModel.MissingEqualSignAccepted | src/gmatutil/util/CCSDSOEMReader.cpp:356-364 | the line "ORIGINATOR" with no equal sign passes the check as written after a valid version line, although it has no "=" |
| CCSDSOEMReaderModel.EqualSignAgreesWithSecondWord | src/gmatutil/util/CCSDSOEMReader.cpp:356-364 | on a line with a second word the check as written agrees with the intended one |
| CCSDSOEMReaderModel.LeadingReals | src/gmatutil/util/CCSDSOEMReader.cpp:655-679 | counts the words that read as reals up to the first that does not: all counted words are reals and the next one is not |
| CCSDSOEMReaderModel.DataValues | src/gmatutil/util/CCSDSOEMReader.cpp:651-690 | a data line yields as many values as the data size it leaves, which is the old size or 6; each value is the reading of the matching word after the epoch; it fails exactly when fewer than the data size read as reals and the count is not 6 |
| CCSDSOEMReaderModel.ReadDataValues | src/gmatutil/util/CCSDSOEMReader.cpp:651-679 | the value loop, including the drop to 6 values when the seventh is missing, computes DataValues |
| CCSDSOEMReaderModel.RowValues | src/gmatutil/util/CCSDSOEMReader.cpp:787-808 | a covariance row of r + 1 columns yields r + 1 values, each the reading of its word, a missing word read as empty |
| CCSDSOEMReaderModel.RowValuesRejects | src/gmatutil/util/CCSDSOEMReader.cpp:787-808 | a row is rejected exactly when one of its first r + 1 words does not read as a real |
| CCSDSOEMReaderModel.RowValuesErrorPersists | src/gmatutil/util/CCSDSOEMReader.cpp:787-808 | the first word that is not a real decides the error, however many more columns the row has |
| CCSDSOEMReaderModel.ReadCovarianceRow | src/gmatutil/util/CCSDSOEMReader.cpp:776-810 | the column loop writes the row's values from the running index on and leaves the rest of the vector alone, or reports the first word that is not a real |
| CCSDSOEMReaderModel.FillRowsLaysOutTriangle | src/gmatutil/util/CCSDSOEMReader.cpp:776-832 | rows of sizes 1, 2, ... written in turn from the triangle offsets lay out the lower triangle row by row |
| CCSDSOEMReaderModel.SixRowsMakeRecord | src/gmatutil/util/CCSDSOEMReader.cpp:813-825 | with one vector kept across the rows, six rows make a 21-value record holding every row in order |
| CCSDSOEMReaderModel.RecordAsWritten | src/gmatutil/util/CCSDSOEMReader.cpp:776-777 | the record as written has 21 values, of which only the last row's come from the file |
| CCSDSOEMReaderModel.RecordAsWrittenLosesRows | src/gmatutil/util/CCSDSOEMReader.cpp:776-825 | the record as written keeps the freshly sized vector's first entry instead of the first row's value, so it differs from the rows read |
| CCSDSOEMReaderModel.InsertIfAbsent | src/gmatutil/util/CCSDSOEMReader.cpp:594 | inserting a meta-data pair keeps an existing entry under the same key and otherwise adds the pair |
| CCSDSOEMReaderModel.AddMetaComment | src/gmatutil/util/CCSDSOEMReader.cpp:515 | adding a meta-data comment keeps the number of segments and their invariant |
| CCSDSOEMReaderModel.AddDataComment | src/gmatutil/util/CCSDSOEMReader.cpp:643 | adding a data comment keeps the number of segments and their invariant |
| CCSDSOEMReaderModel.AddDataRecord | src/gmatutil/util/CCSDSOEMReader.cpp:682-690 | adding a record whose size is the segment's data size or 6 keeps the segments' invariant |
| CCSDSOEMReaderModel.AddCovarianceRecord | src/gmatutil/util/CCSDSOEMReader.cpp:824-825 | adding a 21-value covariance record keeps the segments' invariant |
| CCSDSOEMReaderModel.OEMReader.constructor | src/gmatutil/util/CCSDSOEMReader.cpp:59-65 | a new reader for a file is not initialised and holds no header data, pairs or segments |
| CCSDSOEMReaderModel.OEMReader.ReadHeaderLine | src/gmatutil/util/CCSDSOEMReader.cpp:319-401 | META_START ends the header; a comment is kept only before the first keyword line and is an error after it; other lines need "="; CREATION_DATE must be a valid epoch and is kept, ORIGINATOR is kept, and any other keyword is not allowed in the header |
| CCSDSOEMReaderModel.OEMReader.ReadHeader | src/gmatutil/util/CCSDSOEMReader.cpp:319-410 | the header loop stops at the line after META_START, keeps the version and the segments, and fails when no META_START line exists |
| CCSDSOEMReaderModel.OEMReader.CloseMetaBlock | src/gmatutil/util/CCSDSOEMReader.cpp:463-520 | META_STOP appends one segment numbered by the count so far, with every collected pair; when the segment refuses a pair it fails, naming the refused pair that comes first in the map's key order; the pairs are cleared, the data size is the segment's, and the segments' invariant holds |
| CCSDSOEMReaderModel.FindRefusedPair | src/gmatutil/util/CCSDSOEMReader.cpp:495-509 | the loop over the map in key order stops at the refused key that comes before every other refused key |
| CCSDSOEMReaderModel.FirstExists | src/gmatutil/util/CCSDSOEMReader.cpp:495-509 | every non-empty set of keys has a key that comes before all the others in std::string order, so the refused pair the loop reports always exists |
| CCSDSOEMReaderModel.BelowTotal | src/gmatutil/util/CCSDSOEMReader.cpp:495-497 | std::string order is total: two different keys are ordered one way or the other |
| CCSDSOEMReaderModel.BelowTransitive | src/gmatutil/util/CCSDSOEMReader.cpp:495-497 | std::string order is transitive |
| CCSDSOEMReaderModel.OEMReader.ReadMetaLine | src/gmatutil/util/CCSDSOEMReader.cpp:461-536 | in a meta-data block META_STOP closes the block, while META_START and the covariance keywords are errors; other lines go to ReadMetaEntry and leave the segment count alone |
| CCSDSOEMReaderModel.OEMReader.ReadMetaEntry | src/gmatutil/util/CCSDSOEMReader.cpp:538-595 | a meta-data comment is an error after a keyword line and otherwise goes to the last segment; a pair needs "=" and is entered once under its upper-cased keyword |
| CCSDSOEMReaderModel.OEMReader.ReadEphemerisLine | src/gmatutil/util/CCSDSOEMReader.cpp:646-690 | an ephemeris line with a valid epoch appends a record of DataValues to the last segment and sets the data size, or fails with missing data |
| CCSDSOEMReaderModel.OEMReader.ReadDataLine | src/gmatutil/util/CCSDSOEMReader.cpp:597-690 | in a data block META_STOP and COVARIANCE_STOP are errors, META_START and COVARIANCE_START switch blocks and reset the comment rule, comments go to the last segment unless a data line came first, and other lines are ephemeris lines |
| CCSDSOEMReaderModel.OEMReader.ReadCovarianceMetaLine | src/gmatutil/util/CCSDSOEMReader.cpp:697-760 | in covariance meta-data a comment is kept as the pending comment unless a pair came first; a pair with "=" overwrites its entry; any other line starts the matrix and is read again as its first row |
| CCSDSOEMReaderModel.OEMReader.ReadCovarianceDataLine | src/gmatutil/util/CCSDSOEMReader.cpp:761-834 | COVARIANCE_STOP ends the block; otherwise row r is written from offset r(r+1)/2 into the kept vector, and the sixth row completes a record |
| CCSDSOEMReaderModel.OEMReader.CompleteCovarianceRecord | src/gmatutil/util/CCSDSOEMReader.cpp:813-832 | the completed record carries the epoch and frame of the covariance pairs, the pending comment and the 21 values, is added to the last segment, and the counters and comment are reset |
| CCSDSOEMReaderModel.OEMReader.ReadBlockLine | src/gmatutil/util/CCSDSOEMReader.cpp:455-853 | each line goes to the method of its block; COVARIANCE_STOP clears every block flag, so every later line is skipped with the segments and the scan unchanged |
| CCSDSOEMReaderModel.OEMReader.ReadBlocks | src/gmatutil/util/CCSDSOEMReader.cpp:423-854 | the block loop keeps the segments' invariant and reads to the end of the file |
| CCSDSOEMReaderModel.CheckTrailingLines | src/gmatutil/util/CCSDSOEMReader.cpp:857-873 | after the blocks end, the file passes exactly when only blank lines follow, and a line waiting to be read again counts unless the file has ended |
| CCSDSOEMReaderModel.OEMReader.ParseFile | src/gmatutil/util/CCSDSOEMReader.cpp:200-903 | an initialised reader returns true unchanged, and a file that cannot be opened gives false; a bad version line is an error; success implies a valid version is recorded and a META_START line exists, and the segments' invariant holds |
| SPICEPropagatorModel.TleFieldCheck | plugins/TLEPropagatorPlugin/src/propagator/SPICEPropagator.cpp:223-258 | a line 2 shorter than 8 characters fails on the first substring, then either line not 69 characters long fails the length check, and otherwise the check passes exactly when the six values read from line 2 lie in their ranges |
| SPICEPropagatorModel.ParsedFieldsInRange | plugins/TLEPropagatorPlugin/src/propagator/SPICEPropagator.cpp:224-258 | when every field of line 2 converts, the check passes exactly when inclination is in [0, 180), RAAN, argument of perigee and mean anomaly in [0, 360), eccentricity digits in [0, 9999999) and mean motion in [0, 99) |
| SPICEPropagatorModel.UnreadableFieldReusesPrevious | plugins/TLEPropagatorPlugin/src/propagator/SPICEPropagator.cpp:224-238 | a RAAN field that does not convert is checked with the inclination value left in the shared variable |
| SPICEPropagatorModel.CharWeight | plugins/TLEPropagatorPlugin/src/propagator/SPICEPropagator.cpp:266-272 | a character adds its digit value, a minus sign adds one, and nothing adds more than nine |
| SPICEPropagatorModel.ChecksumSum | plugins/TLEPropagatorPlugin/src/propagator/SPICEPropagator.cpp:263-273 | the loop over every character but the last sums the character weights, and that sum modulo ten is the line's checksum |
| SPICEPropagatorModel.CheckChecksums | plugins/TLEPropagatorPlugin/src/propagator/SPICEPropagator.cpp:261-279 | the loop over the two data lines warns for exactly the lines whose stated checksum differs from the computed one |
| SPICEPropagatorModel.WeightSumChangeOne | plugins/TLEPropagatorPlugin/src/propagator/SPICEPropagator.cpp:263-273 | changing one character changes the weight sum by exactly the difference of the two characters' weights |
| SPICEPropagatorModel.ChecksumDetectsSingleChange | plugins/TLEPropagatorPlugin/src/propagator/SPICEPropagator.cpp:261-279 | two data lines that differ in one character before the last column, with different weights there, have different checksums |
| SPICEPropagatorModel.CorrectChecksumDoesNotWarn | plugins/TLEPropagatorPlugin/src/propagator/SPICEPropagator.cpp:274-278 | a line whose last column is the digit of its own checksum draws no warning |
| SPICEPropagatorModel.TimeOffset | plugins/TLEPropagatorPlugin/src/propagator/SPICEPropagator.cpp:288-297 | a spacecraft without an epoch has a zero offset from the TLE epoch |
| SPICEPropagatorModel.TimeOffsetReachesSatelliteTime | plugins/TLEPropagatorPlugin/src/propagator/SPICEPropagator.cpp:288-297 | the TLE epoch plus the offset is the spacecraft epoch, the TLE epoch itself when the spacecraft has none |
| SPICEPropagatorModel.InputsLayout | plugins/TLEPropagatorPlugin/src/propagator/SPICEPropagator.cpp:310-331 | the 32 inputs are the eight constants, the ten elements, the ten elements again and the tenth element four times |
| SPICEPropagatorModel.InputsLayoutInjective | plugins/TLEPropagatorPlugin/src/propagator/SPICEPropagator.cpp:310-331 | two input buffers are equal exactly when their constants and their elements are equal |
| SPICEPropagatorModel.FillInputs | plugins/TLEPropagatorPlugin/src/propagator/SPICEPropagator.cpp:313-331 | the fill loop leaves the array holding exactly the input layout |
| SPICEPropagatorModel.TlePreflight | plugins/TLEPropagatorPlugin/src/propagator/SPICEPropagator.cpp:180-258 | the checks run in order (file exists, id set, id found, line lengths and ranges) and the set-up passes them exactly when every check holds |
| SPICEPropagatorModel.ExpectedTle | plugins/TLEPropagatorPlugin/src/propagator/SPICEPropagator.cpp:176-353 | a set-up succeeds exactly when every check passes and SPICE evaluates the TLE at the spacecraft epoch; a failed check yields its own message, and success yields the expected record and moves an epoch-less spacecraft to the TLE epoch |
| SPICEPropagatorModel.InitializeTle | plugins/TLEPropagatorPlugin/src/propagator/SPICEPropagator.cpp:176-353 | with no spacecraft nothing is done; otherwise the method yields the expected set-up or its failure message |
| SPICEPropagatorModel.Refresh | plugins/TLEPropagatorPlugin/src/propagator/SPICEPropagator.cpp:1062-1081 | a refreshed record carries the current J2 as its first input and differs from the old one in nothing but the inputs |
| SPICEPropagatorModel.RefreshKeepsCurrent | plugins/TLEPropagatorPlugin/src/propagator/SPICEPropagator.cpp:1062-1081 | a buffer built from the current constants is not touched, and a second refresh changes nothing |
| SPICEPropagatorModel.RefreshFollowsJ2 | plugins/TLEPropagatorPlugin/src/propagator/SPICEPropagator.cpp:1062-1081 | a change of J2 rebuilds the whole buffer from the new constants, while a change of other constants alone leaves the buffer built from the old ones |
| SPICEPropagatorModel.RefreshAll | plugins/TLEPropagatorPlugin/src/propagator/SPICEPropagator.cpp:1060-1081 | every record is refreshed, and the refreshed records stay well formed |
| SPICEPropagatorModel.PropagatedFailsOnOne | plugins/TLEPropagatorPlugin/src/propagator/SPICEPropagator.cpp:1082-1089 | propagating all spacecraft fails exactly when SPICE fails for one of them |
| SPICEPropagatorModel.PropagatedPrefixFails | plugins/TLEPropagatorPlugin/src/propagator/SPICEPropagator.cpp:1060-1093 | a failure in the first spacecraft makes the whole propagation fail |
| SPICEPropagatorModel.RefreshObject | plugins/TLEPropagatorPlugin/src/propagator/SPICEPropagator.cpp:1062-1081 | the in-place rebuild of one buffer yields the refreshed record |
| SPICEPropagatorModel.EvaluateAll | plugins/TLEPropagatorPlugin/src/propagator/SPICEPropagator.cpp:1058-1093 | the loop succeeds exactly when SPICE evaluates every refreshed record, and then yields the refreshed records and the concatenated states in spacecraft order |
| SPICEPropagatorModel.SetUpOne | plugins/TLEPropagatorPlugin/src/propagator/SPICEPropagator.cpp:970-993 | one spacecraft is set up exactly when its central body is Earth and its TLE is accepted, and then its record and epoch are the expected ones; a central body other than Earth is reported as such |
| SPICEPropagatorModel.SetUpSpacecraft | plugins/TLEPropagatorPlugin/src/propagator/SPICEPropagator.cpp:942-1006 | with no spacecraft nothing changes; on success every spacecraft has its expected record and epoch, the elapsed time is zero, the TLE epoch is the first spacecraft's TT epoch in seconds from J2000, and an unset propagator epoch becomes the initial epoch; a set propagator epoch is kept; an epoch mismatch needs two spacecraft and either a set propagator epoch or an unset first spacecraft epoch |
| SPICEPropagatorModel.SPICEPropagator.constructor | plugins/TLEPropagatorPlugin/src/propagator/SPICEPropagator.cpp:357-376 | a new propagator has SPICE's default SGP4 constants, the given step, no configuration file, unset epochs and a 60 s step taken |
| SPICEPropagatorModel.SPICEPropagator.GetParameterID | plugins/TLEPropagatorPlugin/src/propagator/SPICEPropagator.cpp:436-470 | the three spacecraft fields get ids 255, 257 and 258, an own name gets the id of its place in the name list, and any other name goes to the base class |
| SPICEPropagatorModel.SPICEPropagator.IsParameterReadOnly | plugins/TLEPropagatorPlugin/src/propagator/SPICEPropagator.cpp:489-496 | every own id is read-only and below them the base class decides |
| SPICEPropagatorModel.SPICEPropagator.OwnNamesReadOnly | plugins/TLEPropagatorPlugin/src/propagator/SPICEPropagator.cpp:436-496 | every name the propagator handles itself is read-only |
| SPICEPropagatorModel.SPICEPropagator.GetRealParameter | plugins/TLEPropagatorPlugin/src/propagator/SPICEPropagator.cpp:506-542 | the step size and the eight constants read back their values, other own ids are not real parameters and lower ids go to the base class |
| SPICEPropagatorModel.SPICEPropagator.SetRealParameter | plugins/TLEPropagatorPlugin/src/propagator/SPICEPropagator.cpp:551-598 | setting the step sets the step and its buffer, setting a constant changes that constant only, other own ids fail, and a successful set reads back as the value set |
| SPICEPropagatorModel.SPICEPropagator.GetStringParameter | plugins/TLEPropagatorPlugin/src/propagator/SPICEPropagator.cpp:633-645 | the configuration file name, "A1ModJulian" and "21545" are answered for their ids and every other id goes to the base class |
| SPICEPropagatorModel.SPICEPropagator.GetStringParameterByLabel | plugins/TLEPropagatorPlugin/src/propagator/SPICEPropagator.cpp:704-715 | the three spacecraft fields are answered by name and the configuration file by its id |
| SPICEPropagatorModel.SPICEPropagator.SetStringParameter | plugins/TLEPropagatorPlugin/src/propagator/SPICEPropagator.cpp:663-679 | ids from 255 up are accepted and change nothing, the configuration file name is stored, and other ids go to the base class |
| SPICEPropagatorModel.SPICEPropagator.SpacecraftFieldsIgnored | plugins/TLEPropagatorPlugin/src/propagator/SPICEPropagator.cpp:717-729 | the three spacecraft fields map to ids from 255 up, which are accepted and ignored |
| SPICEPropagatorModel.SPICEPropagator.Initialize | plugins/TLEPropagatorPlugin/src/propagator/SPICEPropagator.cpp:894-1017 | the state size is six per spacecraft; when the base class initializes, success stores every spacecraft's expected record and epoch, a zero elapsed time and the TLE epoch of the first spacecraft, and an unset propagator epoch becomes the initial epoch |
| SPICEPropagatorModel.SPICEPropagator.StepOnce | plugins/TLEPropagatorPlugin/src/propagator/SPICEPropagator.cpp:1054-1108 | the elapsed time grows by the step, the records are refreshed, and the step succeeds exactly when every spacecraft propagates, leaving the concatenated states, the step taken and the epoch at the initial epoch plus the elapsed days |
| SPICEPropagatorModel.SPICEPropagator.Step | plugins/TLEPropagatorPlugin/src/propagator/SPICEPropagator.cpp:1020-1047 | an uninitialized propagator does nothing; a successful step of dt advances the elapsed time by dt and restores the configured step, while a failed one leaves the step at dt |
| SPICEPropagatorModel.SPICEPropagator.RawStep | plugins/TLEPropagatorPlugin/src/propagator/SPICEPropagator.cpp:1111-1115 | a raw step always fails |
| TroposphereModel.FullYear | plugins/EstimationPlugin/src/base/measurement/Troposphere/Troposphere.cpp:252-261 | a two-digit year y (0 to 99) becomes the year in 1969-2068 ending in y, and a year of 1000 or more is kept |
| TroposphereModel.ParseTrkTime | plugins/EstimationPlugin/src/base/measurement/Troposphere/Troposphere.cpp:245-275 | a TRK-2-23 time line parses exactly when it has at least 12 characters; without characters past column 14 the seconds are 0, a year field that does not convert gives 2000, and a two-digit year lands in 1969-2068 |
| TroposphereModel.GetTrk223Time | plugins/EstimationPlugin/src/base/measurement/Troposphere/Troposphere.cpp:245-285 | the time of a line is defined exactly when the line has at least 12 characters, and otherwise the error is the substr range error |
| TroposphereModel.TimeIgnoresSeparators | plugins/EstimationPlugin/src/base/measurement/Troposphere/Troposphere.cpp:252-272 | two lines of equal length that differ only in the separator columns 2, 5, 8, 11 and 14 give the same time or the same error |
| TroposphereModel.LinearInterpolator | plugins/EstimationPlugin/src/base/measurement/Troposphere/Troposphere.cpp:300-306 | scale 0 gives the first entry, scale 1 the second, and a scale in [0, 1] a value between the two |
| TroposphereModel.InterpolatorInverse | plugins/EstimationPlugin/src/base/measurement/Troposphere/Troposphere.cpp:300-306 | the scale (x - first) / (second - first) interpolates back to x for distinct entries |
| TroposphereModel.FirstNearFrom | plugins/EstimationPlugin/src/base/measurement/Troposphere/Troposphere.cpp:1038-1050 | the index found is the first site from k on within a degree of the station in latitude and in longitude (across the 0/360 seam), or the end of the table when none is |
| TroposphereModel.DecodeRefractivity | plugins/EstimationPlugin/src/base/measurement/Troposphere/Troposphere.cpp:1052-1053 | the refractivity code splits into NS and HT with NS * 100 + HT * 10 equal to the code, and a non-negative code gives NS >= 0 and 0 <= HT < 10 |
| TroposphereModel.TrogetSpec | plugins/EstimationPlugin/src/base/measurement/Troposphere/Troposphere.cpp:1034-1054 | with no site near the station the result is NS 370 and HT 6.8 (the default code 37068), and it is an error exactly when the first near site holds no entry for the month |
| TroposphereModel.Troposphere.Troget | plugins/EstimationPlugin/src/base/measurement/Troposphere/Troposphere.cpp:1034-1054 | the search loop over the loaded table returns what TrogetSpec states |
| TroposphereModel.ComplexOf | plugins/EstimationPlugin/src/base/measurement/Troposphere/Troposphere.cpp:649-660 | a station number below 30 is Goldstone, 30 to 49 Canberra and 50 or more Madrid, each in both directions |
| TroposphereModel.StationMappingAsWritten | plugins/EstimationPlugin/src/base/measurement/Troposphere/Troposphere.cpp:615-660 | for an id that is not an abbreviation, the complex follows the number after a leading 'C' or the whole id, and the id becomes "DSN(0id)" when shorter than three characters and "DSN(id)" otherwise |
| TroposphereModel.AbbreviationAsWrittenLosesComplex | plugins/EstimationPlugin/src/base/measurement/Troposphere/Troposphere.cpp:615-660 | as written, "CAN" becomes the station "DSN(DSN(C40))" and, with an unset station number of 5, the complex Goldstone |
| TroposphereModel.StationMapping | plugins/EstimationPlugin/src/base/measurement/Troposphere/Troposphere.cpp:615-660 | an abbreviation GDS, CAN or MAD maps to its complex as both station and complex, and every other id maps as written |
| TroposphereModel.Place | plugins/EstimationPlugin/src/base/measurement/Troposphere/Troposphere.cpp:675-696 | a seasonal row (start 72/01/01,00:00) goes to the dry or wet seasonal slot by its kind; a delta row goes to the dry or wet delta slot only when its span parses and holds the epoch; only DRY NUPART and WET NUPART rows are placed |
| TroposphereModel.RowTarget | plugins/EstimationPlugin/src/base/measurement/Troposphere/Troposphere.cpp:667-725 | a row is placed only when it has at least 8 fields with NONE and ALL; slots 0-1 take rows of the complex and slots 2-3 rows of the station that are not the complex's |
| TroposphereModel.LinesAreLastMatches | plugins/EstimationPlugin/src/base/measurement/Troposphere/Troposphere.cpp:663-725 | when the search succeeds, every slot holds the last row placed in it and a slot left at -1 has no such row |
| TroposphereModel.LinesFailOnlyOnError | plugins/EstimationPlugin/src/base/measurement/Troposphere/Troposphere.cpp:667-725 | the search fails exactly when some row's check fails |
| TroposphereModel.LinesErrorStays | plugins/EstimationPlugin/src/base/measurement/Troposphere/Troposphere.cpp:667-725 | once a search over a prefix fails, every longer search fails with the same error |
| TroposphereModel.SelectLines | plugins/EstimationPlugin/src/base/measurement/Troposphere/Troposphere.cpp:663-725 | the loop over the database returns the search result LinesUpTo over all rows |
| TroposphereModel.PowerSumIsHorner | plugins/EstimationPlugin/src/base/measurement/Troposphere/Troposphere.cpp:996-1008 | the NRMPOW sum of coefs[i] * tau^i equals Horner's evaluation of the polynomial |
| TroposphereModel.PowerSumFront | plugins/EstimationPlugin/src/base/measurement/Troposphere/Troposphere.cpp:1005-1008 | splitting off the constant coefficient leaves tau times the sum of the rest |
| TroposphereModel.PowerSumAtSpanEnd | plugins/EstimationPlugin/src/base/measurement/Troposphere/Troposphere.cpp:1005-1008 | at the end of the span (tau = 1) the power series is the sum of its coefficients |
| TroposphereModel.EvaluatePowerSeries | plugins/EstimationPlugin/src/base/measurement/Troposphere/Troposphere.cpp:1005-1008 | the power loop returns the power sum of the coefficients |
| TroposphereModel.NormalizedTime | plugins/EstimationPlugin/src/base/measurement/Troposphere/Troposphere.cpp:998-1004 | the normalized time is -1 at the span's start, 1 at its end and within [-1, 1] inside the span |
| TroposphereModel.TrigSumAtSpanStart | plugins/EstimationPlugin/src/base/measurement/Troposphere/Troposphere.cpp:982-995 | at the span's start (phase 0) the TRIG series is coefs[1] plus the cosine coefficients |
| TroposphereModel.EvaluateTrigSeries | plugins/EstimationPlugin/src/base/measurement/Troposphere/Troposphere.cpp:986-995 | the harmonic loop, taking coefficients in pairs, returns the TRIG series up to the last harmonic |
| TroposphereModel.SolverValueMeaning | plugins/EstimationPlugin/src/base/measurement/Troposphere/Troposphere.cpp:938-1020 | a solver value exists only for a readable span and a known model; CONST gives the first coefficient, NRMPOW Horner's polynomial in the normalized time, and an unknown model with a readable span gives the error naming it |
| TroposphereModel.Trk223Solve | plugins/EstimationPlugin/src/base/measurement/Troposphere/Troposphere.cpp:938-1020 | the solver method returns SolverValue: the span read first, then the CONST, TRIG or NRMPOW model or the unknown-model error |
| TroposphereModel.EvaluateSpan | plugins/EstimationPlugin/src/base/measurement/Troposphere/Troposphere.cpp:976-1013 | the model dispatch returns SpanValue for the parsed span |
| TroposphereModel.SolveIfFound | plugins/EstimationPlugin/src/base/measurement/Troposphere/Troposphere.cpp:758-773 | a station slot left at -1 adds nothing |
| TroposphereModel.ComplexCorrections | plugins/EstimationPlugin/src/base/measurement/Troposphere/Troposphere.cpp:734-755 | a result needs both seasonal rows of the complex, and without a dry delta line it is exactly their two solver values |
| TroposphereModel.StationCorrections | plugins/EstimationPlugin/src/base/measurement/Troposphere/Troposphere.cpp:757-773 | with no line of the station's own the station adds zero to both corrections |
| TroposphereModel.ZenithCorrections | plugins/EstimationPlugin/src/base/measurement/Troposphere/Troposphere.cpp:734-742 | a missing dry seasonal line of the complex is the seasonal-data error naming the station |
| TroposphereModel.ZenithWithoutStationLines | plugins/EstimationPlugin/src/base/measurement/Troposphere/Troposphere.cpp:729-773 | with no line of the station's own the zenith corrections are the complex's |
| TroposphereModel.SolveLine | plugins/EstimationPlugin/src/base/measurement/Troposphere/Troposphere.cpp:736-772 | the solver call on a row index returns the solver value of that row, and an index outside the database is an error |
| TroposphereModel.SolveLineIfFound | plugins/EstimationPlugin/src/base/measurement/Troposphere/Troposphere.cpp:758-773 | the call on a station slot returns nothing to add for -1 and the row's solver value otherwise |
| TroposphereModel.CombineComplex | plugins/EstimationPlugin/src/base/measurement/Troposphere/Troposphere.cpp:734-755 | the complex's calls return ComplexCorrections |
| TroposphereModel.CombineStation | plugins/EstimationPlugin/src/base/measurement/Troposphere/Troposphere.cpp:757-773 | the station's calls return StationCorrections |
| TroposphereModel.CombineCorrections | plugins/EstimationPlugin/src/base/measurement/Troposphere/Troposphere.cpp:729-773 | the calls in source order return ZenithCorrections |
| TroposphereModel.InterpolateRows | plugins/EstimationPlugin/src/base/measurement/Troposphere/Troposphere.cpp:852-858 | interpolating table rows at scale 0 gives the lower row and at scale 1 the upper one |
| TroposphereModel.TableCoefficients | plugins/EstimationPlugin/src/base/measurement/Troposphere/Troposphere.cpp:817-858 | the coefficients of a table row are the interpolation at its start (scale 0) and at the end of the interval below it (scale 1) |
| TroposphereModel.EndCoefficientsAsWritten | plugins/EstimationPlugin/src/base/measurement/Troposphere/Troposphere.cpp:817-840 | below 15 and above 75 degrees as written, the dry a coefficient ends as the wet c entry, the wet a stays 1, and the result is not the table row |
| TroposphereModel.BracketAsWritten | plugins/EstimationPlugin/src/base/measurement/Troposphere/Troposphere.cpp:843-850 | as written, any latitude below 60 degrees takes the 45-60 degree interval, below 45 degrees with a scale above 1, and 60 degrees or more keeps interval 0 with scale 0 |
| TroposphereModel.NiellBracketAsWritten | plugins/EstimationPlugin/src/base/measurement/Troposphere/Troposphere.cpp:843-850 | the latitude loop as written returns BracketAsWritten |
| TroposphereModel.NiellAsWrittenMissesTableRow | plugins/EstimationPlugin/src/base/measurement/Troposphere/Troposphere.cpp:843-858 | as written, the wet a coefficient at the table latitude 30 degrees differs from the 30-degree table entry |
| TroposphereModel.ScaleReversedFrom45To60 | plugins/EstimationPlugin/src/base/measurement/Troposphere/Troposphere.cpp:843-850 | between 45 and 60 degrees the loop as written finds the intended interval but its scale is one minus the intended scale, so the rows are interpolated at the latitude mirrored in the interval (105 - lat); at 45 degrees it gives (2, 1.0) where the intended bracket gives (2, 0.0), and the coefficients are the 60-degree row, whose wet a differs from the 45-degree row's |
| TroposphereModel.Bracket | plugins/EstimationPlugin/src/base/measurement/Troposphere/Troposphere.cpp:843-850 | the intended interval holds the latitude, its scale lies in [0, 1] and interpolating the interval's latitudes at that scale gives the latitude back |
| TroposphereModel.NiellBracket | plugins/EstimationPlugin/src/base/measurement/Troposphere/Troposphere.cpp:843-850 | the corrected latitude loop returns Bracket |
| TroposphereModel.NiellCoefficients | plugins/EstimationPlugin/src/base/measurement/Troposphere/Troposphere.cpp:815-858 | below 15 degrees (either hemisphere) the coefficients are the 15-degree row and above 75 the 75-degree row |
| TroposphereModel.NiellMeetsTable | plugins/EstimationPlugin/src/base/measurement/Troposphere/Troposphere.cpp:815-858 | at every table latitude the coefficients are that table row |
| TroposphereModel.Troposphere.NiellAt | plugins/EstimationPlugin/src/base/measurement/Troposphere/Troposphere.cpp:815-858 | the coefficient computation with the latitude loop returns NiellCoefficients |
| TroposphereModel.CorrectionVector | plugins/EstimationPlugin/src/base/measurement/Troposphere/Troposphere.cpp:918-921 | the output holds the range correction, the elevation correction and a time delay that, times the speed of light, is the range correction |
| TroposphereModel.MariniResult | plugins/EstimationPlugin/src/base/measurement/Troposphere/Troposphere.cpp:465-582 | an empty table loaded from a file without rows is the unable-to-load error naming the file, and a result needs a non-empty table for which TROGET succeeds for the month before |
| TroposphereModel.Trk223Result | plugins/EstimationPlugin/src/base/measurement/Troposphere/Troposphere.cpp:595-924 | when the search succeeds without a dry seasonal line of the complex the result is the seasonal-data error, and a result holds three values whose elevation correction is Lanyi's |
| TroposphereModel.Troposphere.constructor | plugins/EstimationPlugin/src/base/measurement/Troposphere/Troposphere.cpp:58-68 | a new object has month 0, epoch 0, station height 0 and no Marini data, with the model name, station id and DSN database given |
| TroposphereModel.Troposphere.SetStationHeight | plugins/EstimationPlugin/src/base/measurement/Troposphere/Troposphere.cpp:143-148 | the station height is set, true is returned and nothing else changes |
| TroposphereModel.Troposphere.SetTime | plugins/EstimationPlugin/src/base/measurement/Troposphere/Troposphere.cpp:157-164 | the epoch and its calendar month are set, true is returned and nothing else changes |
| TroposphereModel.Troposphere.CalculateMarini | plugins/EstimationPlugin/src/base/measurement/Troposphere/Troposphere.cpp:465-582 | the table is loaded only when empty, and the result is MariniResult for the month held |
| TroposphereModel.Troposphere.CalculateTrk223 | plugins/EstimationPlugin/src/base/measurement/Troposphere/Troposphere.cpp:595-924 | the ground station id becomes the mapped id, and the result is Trk223Result for the mapped station and complex |
| TroposphereModel.Troposphere.Correction | plugins/EstimationPlugin/src/base/measurement/Troposphere/Troposphere.cpp:178-210 | the HopfieldSaastamoinen, Marini and TRK-2-23 models each give their result, any other name the unrecognized-model error naming it; every result is range, elevation and delay with delay times the speed of light equal to the range correction; only the Marini table and, for TRK-2-23, the station id change |
| BRTSRangeAdapterModel.BlockingReason | plugins/EstimationPlugin/src/base/adapter/BRTSRangeAdapter.cpp:283-305 | a blocked leg's reason gets the leg number after its 'B', a horizon reason becomes "HORP", and neither is empty or "N" |
| BRTSRangeAdapterModel.FeasibleIffNominal | plugins/EstimationPlugin/src/base/adapter/BRTSRangeAdapter.cpp:227-305 | starting from infeasible with no reason, whatever the legs of all paths report, the measurement is feasible exactly when its reason is "N" |
| BRTSRangeAdapterModel.DecidedStays | plugins/EstimationPlugin/src/base/adapter/BRTSRangeAdapter.cpp:283-305 | once a blocking reason is set, no later leg changes the feasibility, reason or value |
| BRTSRangeAdapterModel.FirstBlockingDecides | plugins/EstimationPlugin/src/base/adapter/BRTSRangeAdapter.cpp:227-305 | over a path's legs, the first blocking leg decides (infeasible, its rewritten reason numbered by its position, its value); without one the first feasible leg with a station participant makes the measurement feasible with reason "N" and its value; otherwise it stays infeasible with no reason and value 90 |
| BRTSRangeAdapterModel.ValueIsRangePlusCorrection | plugins/EstimationPlugin/src/base/adapter/BRTSRangeAdapter.cpp:356-381 | the accumulated C-value of a path is its geometric range plus its accumulated corrections |
| BRTSRangeAdapterModel.UncountedCorrectionsIgnored | plugins/EstimationPlugin/src/base/adapter/BRTSRangeAdapter.cpp:368-375 | corrections that are disabled or not of type "Range" add nothing |
| BRTSRangeAdapterModel.EpochIsTaggedEnd | plugins/EstimationPlugin/src/base/adapter/BRTSRangeAdapter.cpp:384-402 | the tagged epoch is the last leg's receive time plus its receive delay when time-tagged at the receiver, the first leg's transmit time minus its transmit delay otherwise, and unchanged for a path without legs |
| BRTSRangeAdapterModel.WalkPath | plugins/EstimationPlugin/src/base/adapter/BRTSRangeAdapter.cpp:269-407 | the leg loop yields the path's C-value and correction sums, the feasibility folded over its legs, and for the first path the tagged epoch |
| BRTSRangeAdapterModel.WalkPaths | plugins/EstimationPlugin/src/base/adapter/BRTSRangeAdapter.cpp:259-409 | the path loop yields one C-value and one correction per path, the feasibility across all paths and the epoch of the first path |
| BRTSRangeAdapterModel.AppliedKeepsRange | plugins/EstimationPlugin/src/base/adapter/BRTSRangeAdapter.cpp:524-571 | for a BRTS range measurement the value minus the correction after ApplyBiasAndNoise is the multiplier times their difference before it, as noise and bias go into both; other types pass through |
| BRTSRangeAdapterModel.RangeOnlyIsScaledOnly | plugins/EstimationPlugin/src/base/adapter/BRTSRangeAdapter.cpp:524-536 | with rangeOnly set, a BRTS range value is only multiplied by the multiplier |
| BRTSRangeAdapterModel.ApplyAll | plugins/EstimationPlugin/src/base/adapter/BRTSRangeAdapter.cpp:490-605 | the ApplyBiasAndNoise loop writes, at every index, the value and the correction scaled and perturbed as Applied states |
| BRTSRangeAdapterModel.AppliedAllKeepsRange | plugins/EstimationPlugin/src/base/adapter/BRTSRangeAdapter.cpp:524-571 | at every index, the written value exceeds the written correction by the multiplier times their difference before scaling |
| BRTSRangeAdapterModel.PathValuesExceedCorrections | plugins/EstimationPlugin/src/base/adapter/BRTSRangeAdapter.cpp:356-381 | at every path, the C-value exceeds the correction by the path's geometric range |
| BRTSRangeAdapterModel.Measure | plugins/EstimationPlugin/src/base/adapter/BRTSRangeAdapter.cpp:227-430 | walking the paths and applying multiplier, noise and bias gives the record Computed states |
| BRTSRangeAdapterModel.ScaleDerivatives | plugins/EstimationPlugin/src/base/adapter/BRTSRangeAdapter.cpp:750-764 | the copy succeeds exactly when the table is non-empty and every row has the first row's length, and then every entry is the model's entry times the factor; an empty table fails on the first row, a short or long row with the size message |
| BRTSRangeAdapterModel.ZeroRow | plugins/EstimationPlugin/src/base/adapter/BRTSRangeAdapter.cpp:693-698 | the derivative of an unused bias is one row of zeros of the parameter's size |
| BRTSRangeAdapterModel.BRTSRangeAdapter.constructor | plugins/EstimationPlugin/src/base/adapter/BRTSRangeAdapter.cpp:51-61 | a new adapter has type name "BRTS_Range" |
| BRTSRangeAdapterModel.BRTSRangeAdapter.ComputeBiasAndNoise | plugins/EstimationPlugin/src/base/adapter/BRTSRangeAdapter.cpp:618-627 | biases and noise sigmas are taken from the error model only for a BRTS range measurement; nothing else changes |
| BRTSRangeAdapterModel.BRTSRangeAdapter.ApplyBiasAndNoise | plugins/EstimationPlugin/src/base/adapter/BRTSRangeAdapter.cpp:490-605 | the measurement's values and corrections become the scaled, perturbed inputs; nothing else changes |
| BRTSRangeAdapterModel.BRTSRangeAdapter.CalculateMeasurement | plugins/EstimationPlugin/src/base/adapter/BRTSRangeAdapter.cpp:161-476 | without a measurement model it fails with the not-set message and changes nothing; otherwise the record is recomputed only when the epoch is valid and the model produced data, and is marked infeasible "EGAP" when the epoch fails either check |
| BRTSRangeAdapterModel.BRTSRangeAdapter.CalculateMeasurementDerivatives | plugins/EstimationPlugin/src/base/adapter/BRTSRangeAdapter.cpp:644-769 | a shared BRTS range bias and a BRTS range pass bias take the model's derivatives, other biases a zero row, and every other parameter the model's table scaled by the multiplier for a spacecraft parameter of a BRTS range measurement and by 1 otherwise |
| TdrsServiceAccess.SetAtMeaning | plugins/EstimationPlugin/src/base/adapter/BRTSDopplerAdapter.cpp:376-400 | setting a service-access name succeeds exactly for 0 <= index <= size and otherwise fails with the out-of-bounds message; the name is then at index, every other name stays, and the list grows by one only when the name is appended |
| TdrsServiceAccess.GetAfterSet | plugins/EstimationPlugin/src/base/adapter/BRTSDopplerAdapter.cpp:376-431 | reading back the index just set gives the name set, and any other index reads as before |
| TdrsServiceAccess.TurnAroundRatio | plugins/EstimationPlugin/src/base/adapter/BRTSDopplerAdapter.cpp:1915-1932 | band 1 (S) gives 240/221 and band 2 (X) gives 880/749, both above 1; every other band fails with "Error: frequency band <band> is not specified." |
| TdrsServiceAccess.TurnAroundRatioScalesFrequency | plugins/EstimationPlugin/src/base/adapter/BRTSDopplerAdapter.cpp:1915-1932 | the ratios send 221 received cycles back as 240 in S-band and 749 as 880 in X-band |
| BRTSDopplerAdapterModel.TdrsIdIsMaximalDigitRun | plugins/EstimationPlugin/src/base/adapter/BRTSDopplerAdapter.cpp:1152-1164 | the TDRS id taken from a node id is its longest digit suffix: every character from its start is a digit and the character before it, if any, is not |
| BRTSDopplerAdapterModel.TdrsIdSuffix | plugins/EstimationPlugin/src/base/adapter/BRTSDopplerAdapter.cpp:1152-1164 | the backward scan over the node id returns exactly that digit suffix |
| BRTSDopplerAdapterModel.Truncated | plugins/EstimationPlugin/src/base/adapter/BRTSDopplerAdapter.cpp:1194 | the truncation the S-band pilot uses rounds toward zero: k <= x < k + 1 for x >= 0 and k - 1 < x <= k below |
| BRTSDopplerAdapterModel.MaPilot | plugins/EstimationPlugin/src/base/adapter/BRTSDopplerAdapter.cpp:1225-1264 | the MA pilot of TDRS 8 to 10 steps by 7.5 MHz from 13405 MHz for SMA receivers 2 to 8 and from 13600 MHz for 27 to 30, and is 13405 MHz for every other receiver |
| BRTSDopplerAdapterModel.PilotFrequency | plugins/EstimationPlugin/src/base/adapter/BRTSDopplerAdapter.cpp:1188-1290 | the pilot exists exactly for SA1 or SA2 in band 1 or 3, and for MA in band 1 on TDRS 8 to 10 or with data flag 0 or 1; every other case fails with its own message (SA1 band, SA2 band, MA band, data flag, unknown service naming the service) |
| BRTSDopplerAdapterModel.SA2AboveSA1 | plugins/EstimationPlugin/src/base/adapter/BRTSDopplerAdapter.cpp:1188-1219 | the SA2 pilot is 20 MHz above SA1's in S-band and 400 MHz above it in K-band |
| BRTSDopplerAdapterModel.SA1PilotTracksNode4 | plugins/EstimationPlugin/src/base/adapter/BRTSDopplerAdapter.cpp:1191-1195 | the S-band SA1 pilot lies within a quarter MHz of 13677.5 MHz minus the node-4 frequency and on the half-MHz grid |
| BRTSDopplerAdapterModel.DopplerMultipliers | plugins/EstimationPlugin/src/base/adapter/BRTSDopplerAdapter.cpp:1297-1300 | the multipliers exist exactly for a nonzero count interval (division by zero otherwise); the End multipliers are the negated Start ones, and the Start-Long and Start-Short multipliers times the count interval and the speed of light (km/s) give the node-4 and pilot frequencies in Hz |
| BRTSDopplerAdapterModel.CombineAsDifferences | plugins/EstimationPlugin/src/base/adapter/BRTSDopplerAdapter.cpp:1325-1333 | the combined value is the Start-Long multiplier times the Start-Long less End-Long scaled range plus the Start-Short multiplier times the Start-Short less End-Short scaled range |
| BRTSDopplerAdapterModel.CombineIsRangeChange | plugins/EstimationPlugin/src/base/adapter/BRTSDopplerAdapter.cpp:1297-1333 | the combined value is (node-4 frequency times the long-path range change plus pilot frequency times the short-path range change) over the count interval times the speed of light |
| BRTSDopplerAdapterModel.StationaryPathsCountNothing | plugins/EstimationPlugin/src/base/adapter/BRTSDopplerAdapter.cpp:1297-1333 | when each Start path's scaled range equals its End path's, the combined value is zero |
| BRTSDopplerAdapterModel.CombinedFeasibility | plugins/EstimationPlugin/src/base/adapter/BRTSDopplerAdapter.cpp:1343-1367 | the measurement is feasible exactly when all four paths are |
| BRTSDopplerAdapterModel.CombinedFeasibilityIsFirstInfeasible | plugins/EstimationPlugin/src/base/adapter/BRTSDopplerAdapter.cpp:1343-1367 | the feasibility, reason and value are those of the first infeasible path in the order End-Long, End-Short, Start-Long, Start-Short, and End-Long's when all are feasible |
| BRTSDopplerAdapterModel.CombinedFeasibilitySettles | plugins/EstimationPlugin/src/base/adapter/BRTSDopplerAdapter.cpp:1343-1367 | combining again after the End-Long record has taken the combined feasibility changes nothing |
| BRTSDopplerAdapterModel.DopplerAppliedKeepsDifference | plugins/EstimationPlugin/src/base/adapter/BRTSDopplerAdapter.cpp:1369-1420 | noise and bias shift a value and its correction by the same amount, and nothing is added to a non-Doppler measurement or with range only |
| BRTSDopplerAdapterModel.Configured | plugins/EstimationPlugin/src/base/adapter/BRTSDopplerAdapter.cpp:988-1021 | an observation sets the service list to its one service with index 0, its count interval, node-4 frequency (Hz to MHz), band, data flag and SMA receiver id; a simulation keeps the list and picks an index inside it, and fails with the empty-list message exactly when the list is empty |
| BRTSDopplerAdapterModel.Reached | plugins/EstimationPlugin/src/base/adapter/BRTSDopplerAdapter.cpp:1136-1300 | the walk over k paths ends passing all k or failing at an earlier path, and every path before where it stopped has multipliers |
| BRTSDopplerAdapterModel.FailureStays | plugins/EstimationPlugin/src/base/adapter/BRTSDopplerAdapter.cpp:1136-1290 | once a path fails, the walk over more paths stops at the same place |
| BRTSDopplerAdapterModel.WalkStepFails | plugins/EstimationPlugin/src/base/adapter/BRTSDopplerAdapter.cpp:1136-1290 | a walk that has passed so far and meets a path without multipliers ends there with that path's message and the records as they were |
| BRTSDopplerAdapterModel.WalkPath | plugins/EstimationPlugin/src/base/adapter/BRTSDopplerAdapter.cpp:1136-1420 | one path of a passing walk: the records after it as the walk defines them, or the failure that ends the walk |
| BRTSDopplerAdapterModel.WalkPaths | plugins/EstimationPlugin/src/base/adapter/BRTSDopplerAdapter.cpp:1136-1480 | the loop over the signal paths computes the walk over all of them |
| BRTSDopplerAdapterModel.StepAgrees | plugins/EstimationPlugin/src/base/adapter/BRTSDopplerAdapter.cpp:1297-1420 | one path writes its expected value and correction at its own index, sets the combined feasibility and changes no other index |
| BRTSDopplerAdapterModel.ExpectedPathFails | plugins/EstimationPlugin/src/base/adapter/BRTSDopplerAdapter.cpp:1188-1300 | a path has an expected value exactly when its multipliers exist, and otherwise fails with their message |
| BRTSDopplerAdapterModel.WalkKeepsLater | plugins/EstimationPlugin/src/base/adapter/BRTSDopplerAdapter.cpp:1136-1420 | the walk leaves the entries of the paths it has not reached as they were, and after one path the feasibility is the combined one |
| BRTSDopplerAdapterModel.WalkPassMeaning | plugins/EstimationPlugin/src/base/adapter/BRTSDopplerAdapter.cpp:1136-1420 | after the first n paths, each holds the value and correction it gets on its own |
| BRTSDopplerAdapterModel.WalkFailMeaning | plugins/EstimationPlugin/src/base/adapter/BRTSDopplerAdapter.cpp:1136-1290 | a failed walk stopped before the end at a path without multipliers and carries that path's message |
| BRTSDopplerAdapterModel.WalkPassesIff | plugins/EstimationPlugin/src/base/adapter/BRTSDopplerAdapter.cpp:1136-1480 | the walk passes exactly when every path has an expected value, and then holds those values; otherwise it carries the message of the first path without one |
| BRTSDopplerAdapterModel.StateDerivativeIsRangeChange | plugins/EstimationPlugin/src/base/adapter/BRTSDopplerAdapter.cpp:1759-1768 | a position or velocity derivative entry is weighted by the multipliers like the Doppler value itself |
| BRTSDopplerAdapterModel.CombineDerivatives | plugins/EstimationPlugin/src/base/adapter/BRTSDopplerAdapter.cpp:1740-1776 | the tables combine exactly when the other three have End-Long's width and at least its rows, failing with the End-Short, Start-Long or Start-Short size message otherwise; the result has End-Long's shape, with the multiplier-weighted sum for position and velocity and End-Long's entry for other parameters |
| BRTSDopplerAdapterModel.Calculate | plugins/EstimationPlugin/src/base/adapter/BRTSDopplerAdapter.cpp:960-1498 | the measurement computation is the one the update function defines |
| BRTSDopplerAdapterModel.BRTSDopplerAdapter.constructor | plugins/EstimationPlugin/src/base/adapter/BRTSDopplerAdapter.cpp:81-99 | count interval 1 s, node-4 frequency 2000 MHz, band 1, SMA receiver id and data flag 0, type "BRTS_Doppler", no service access |
| BRTSDopplerAdapterModel.BRTSDopplerAdapter.SetServiceAccess | plugins/EstimationPlugin/src/base/adapter/BRTSDopplerAdapter.cpp:376-400 | the list after setting the name at index as SetAt defines it, or the out-of-bounds failure with the list unchanged; no other field changes |
| BRTSDopplerAdapterModel.BRTSDopplerAdapter.GetServiceAccess | plugins/EstimationPlugin/src/base/adapter/BRTSDopplerAdapter.cpp:415-431 | the name at index, or the out-of-bound message naming the index and the size |
| BRTSDopplerAdapterModel.BRTSDopplerAdapter.SetRealParameter | plugins/EstimationPlugin/src/base/adapter/BRTSDopplerAdapter.cpp:634-660 | a count interval or node-4 frequency is stored and returned exactly when positive; otherwise the failure message and nothing changes |
| BRTSDopplerAdapterModel.BRTSDopplerAdapter.SetIntegerParameter | plugins/EstimationPlugin/src/base/adapter/BRTSDopplerAdapter.cpp:506-535 | the band, SMA receiver id or data flag is stored as given, and 1 is returned |
| BRTSDopplerAdapterModel.BRTSDopplerAdapter.SetBooleanParameter | plugins/EstimationPlugin/src/base/adapter/BRTSDopplerAdapter.cpp:698-718 | ADD_NOISE is set on the Doppler measurement and cleared on the three path adapters; any other flag is passed to all of them |
| BRTSDopplerAdapterModel.BRTSDopplerAdapter.Initialize | plugins/EstimationPlugin/src/base/adapter/BRTSDopplerAdapter.cpp:914-939 | initialization succeeds exactly when the base and the three path adapters do, and a successful base resets the service index to 0 |
| BRTSDopplerAdapterModel.BRTSDopplerAdapter.CalculateMeasurement | plugins/EstimationPlugin/src/base/adapter/BRTSDopplerAdapter.cpp:960-1498 | the record, multipliers, configuration, biases and sigmas after the call are those Calculated gives from the state before it |
| BRTSDopplerAdapterModel.BRTSDopplerAdapter.CalculateMeasurementDerivatives | plugins/EstimationPlugin/src/base/adapter/BRTSDopplerAdapter.cpp:1522-1798 | without calculated data it fails; "Bias" gives End-Long's derivatives for a BRTS Doppler bias shared by more than one participant and a row of zeros otherwise, "PassBiases" End-Long's for a BRTS Doppler model and zeros otherwise; any other parameter fails on the first table that is not rectangular, in the order End-Long, End-Short, Start-Long, Start-Short, and otherwise combines them as CombineDerivatives states |
| TDRS3LReturnDopplerModel.ValueFromRangeRates | plugins/EstimationPlugin/src/base/adapter/TDRS3LReturnDopplerAdapter.cpp:1349-1407 | the Doppler count of a path is the node-4 frequency times the spacecraft path's range-rate ratio plus the pilot frequency times the ground-station path's, in Hz |
| TDRS3LReturnDopplerModel.OscillatorRateIsChainRule | plugins/EstimationPlugin/src/base/adapter/TDRS3LReturnDopplerAdapter.cpp:1676-1685 | the FrequencyDrift partial a·dF/dDrift·(rrSC + dBdA·rrGS) is exactly the change of the modelled Doppler count per unit of the oscillator parameter, the pilot moving with the effective frequency at rate dBdA |
| TDRS3LReturnDopplerModel.ReturnFeasibility | plugins/EstimationPlugin/src/base/adapter/TDRS3LReturnDopplerAdapter.cpp:1422-1449 | the measurement is feasible exactly when all four paths are, and then has reason "N" and the End-Spacecraft feasibility value |
| TDRS3LReturnDopplerModel.ReturnFeasibilityIsFirstInfeasible | plugins/EstimationPlugin/src/base/adapter/TDRS3LReturnDopplerAdapter.cpp:1422-1449 | the feasibility is a first-match scan of End-Spacecraft, End-GroundStation, Start-Spacecraft, Start-GroundStation over the default "feasible, N" |
| TDRS3LReturnDopplerModel.Configured | plugins/EstimationPlugin/src/base/adapter/TDRS3LReturnDopplerAdapter.cpp:1036-1063 | simulating with an empty service-access list fails with its message; an observation sets the single service access, count interval, data flag and SMA receiver id but keeps the node-4 frequency and band; a simulation draws an index into the adapter's list |
| TDRS3LReturnDopplerModel.ConfiguredKeepsNode4 | plugins/EstimationPlugin/src/base/adapter/TDRS3LReturnDopplerAdapter.cpp:1039-1056 | the configuration rule is the BRTS Doppler one except that the node-4 frequency and band are not taken from the observation |
| TDRS3LReturnDopplerModel.PathMultipliers | plugins/EstimationPlugin/src/base/adapter/TDRS3LReturnDopplerAdapter.cpp:1349-1352 | Start-Spacecraft = −End-Spacecraft and Start-GroundStation = −End-GroundStation, scaled from the node-4 and pilot frequencies over the count interval and the speed of light |
| TDRS3LReturnDopplerModel.PathEntries | plugins/EstimationPlugin/src/base/adapter/TDRS3LReturnDopplerAdapter.cpp:1382-1394 | the entries pushed for the first k paths are k, each the path's Doppler count with noise and bias, in path order |
| TDRS3LReturnDopplerModel.PushPaths | plugins/EstimationPlugin/src/base/adapter/TDRS3LReturnDopplerAdapter.cpp:1203-1561 | the path loop leaves the record holding one value and one correction per path, the combined feasibility, the TDRS fields and the count interval, and the last path's multipliers, range-rate ratios and pilot derivative |
| TDRS3LReturnDopplerModel.WalkMeaning | plugins/EstimationPlugin/src/base/adapter/TDRS3LReturnDopplerAdapter.cpp:1382-1497 | after the walk every value exceeds its correction by the noise-free difference, the feasibility is the combined one, and without noise and bias each value is the range-rate formula |
| TDRS3LReturnDopplerModel.PolynomialRow | plugins/EstimationPlugin/src/base/adapter/TDRS3LReturnDopplerAdapter.cpp:1686-1693 | the FrequencyPolynomialCoefficients row has one entry per coefficient, each the oscillator rate of its frequency derivative |
| TDRS3LReturnDopplerModel.Calculate | plugins/EstimationPlugin/src/base/adapter/TDRS3LReturnDopplerAdapter.cpp:1006-1587 | an epoch off the ephemerides only marks "EGAP"; otherwise configures, takes the node-4 frequency and band from the End-Spacecraft path, clears and walks the paths, takes the biases and sigmas when there is a path, and marks "EGAP" when the second epoch check fails |
| TDRS3LReturnDopplerModel.TDRS3LReturnDopplerAdapter.constructor | plugins/EstimationPlugin/src/base/adapter/TDRS3LReturnDopplerAdapter.cpp:82-107 | a new adapter has type "SN_Doppler_Rtn", count interval 1 s, node-4 frequency 2000 MHz, band 1, SMA receiver id 0, data flag 0 and mixer factor 1 |
| TDRS3LReturnDopplerModel.TDRS3LReturnDopplerAdapter.SetServiceAccess | plugins/EstimationPlugin/src/base/adapter/TDRS3LReturnDopplerAdapter.cpp:402-415 | setting a service access overwrites inside the list, appends just past its end and fails elsewhere, changing nothing else |
| TDRS3LReturnDopplerModel.TDRS3LReturnDopplerAdapter.GetServiceAccess | plugins/EstimationPlugin/src/base/adapter/TDRS3LReturnDopplerAdapter.cpp:442-454 | the service access at an index inside the list, or the out-of-bound message |
| TDRS3LReturnDopplerModel.TDRS3LReturnDopplerAdapter.SetRealParameter | plugins/EstimationPlugin/src/base/adapter/TDRS3LReturnDopplerAdapter.cpp:662-680 | the count interval and node-4 frequency take only positive values, each with its own message otherwise |
| TDRS3LReturnDopplerModel.TDRS3LReturnDopplerAdapter.SetIntegerParameter | plugins/EstimationPlugin/src/base/adapter/TDRS3LReturnDopplerAdapter.cpp:533-554 | the node-4 band, SMA receiver id and data flag are set unchecked and the call returns true |
| TDRS3LReturnDopplerModel.TDRS3LReturnDopplerAdapter.SetBooleanParameter | plugins/EstimationPlugin/src/base/adapter/TDRS3LReturnDopplerAdapter.cpp:727-749 | AddNoise is set false on all four path adapters and to the value on the adapter itself; any other flag goes to all five |
| TDRS3LReturnDopplerModel.TDRS3LReturnDopplerAdapter.Initialize | plugins/EstimationPlugin/src/base/adapter/TDRS3LReturnDopplerAdapter.cpp:950-984 | after the base initializes, the service index is reset to 0 and success needs all four path adapters |
| TDRS3LReturnDopplerModel.TDRS3LReturnDopplerAdapter.CalculateMeasurement | plugins/EstimationPlugin/src/base/adapter/TDRS3LReturnDopplerAdapter.cpp:1006-1587 | the adapter's configuration, record, multipliers, ratios, biases and sigmas become what Calculated gives from the old state; its settings and flags are unchanged |
| TDRS3LReturnDopplerModel.TDRS3LReturnDopplerAdapter.CalculateMeasurementDerivatives | plugins/EstimationPlugin/src/base/adapter/TDRS3LReturnDopplerAdapter.cpp:1603-1898 | biases follow the return Doppler type rules; FrequencyDrift and FrequencyPolynomialCoefficients take the oscillator rates at the last path; any other parameter copies and combines the four tables, the Start-GroundStation, Start-Spacecraft and End-GroundStation size messages included |
| TDRSDOWDModel.Overlaid | plugins/EstimationPlugin/src/base/adapter/TDRSDOWDAdapter.cpp:1014-1017 | a sub-adapter's list after the adapter's names are set at 0, 1, ... holds the adapter's names first and keeps whatever it held beyond them |
| TDRSDOWDModel.OverlayStep | plugins/EstimationPlugin/src/base/adapter/TDRSDOWDAdapter.cpp:1014-1017 | setting the next name never fails, because its index is at most the list's length, and it extends the overlay by that name |
| TDRSDOWDModel.CopyServiceAccesses | plugins/EstimationPlugin/src/base/adapter/TDRSDOWDAdapter.cpp:1014-1017 | the loop that hands a list to a sub-adapter name by name leaves the sub-adapter's list overlaid with it and nothing else of the sub-adapter changed |
| TDRSDOWDModel.ConfiguredPair | plugins/EstimationPlugin/src/base/adapter/TDRSDOWDAdapter.cpp:1103-1135 | an observation sets both TDRSs' settings from its own fields; a simulation draws an index into each list and fails exactly when a list is empty, naming the comparison list first; a result's service indices are inside their lists |
| TDRSDOWDModel.ConfiguredPairIsPerLeg | plugins/EstimationPlugin/src/base/adapter/TDRSDOWDAdapter.cpp:1103-1135 | each TDRS's settings are those the BRTS Doppler rule gives for that TDRS alone |
| TDRSDOWDModel.DowdFeasibility | plugins/EstimationPlugin/src/base/adapter/TDRSDOWDAdapter.cpp:1292-1307 | the measurement is feasible exactly when both sub-measurements are; an infeasible comparison decides the reason and value, before the reference; a feasible one has reason "N" and the comparison's value |
| TDRSDOWDModel.DowdFeasibilityIsFirstInfeasible | plugins/EstimationPlugin/src/base/adapter/TDRSDOWDAdapter.cpp:1292-1307 | the precedence is the first infeasible of comparison, reference over "feasible, N" |
| TDRSDOWDModel.PathEntries | plugins/EstimationPlugin/src/base/adapter/TDRSDOWDAdapter.cpp:1281-1286 | the entries of the first k paths are one per path, in path order |
| TDRSDOWDModel.PushDifferences | plugins/EstimationPlugin/src/base/adapter/TDRSDOWDAdapter.cpp:1278-1345 | the path loop appends, for each path, +1 times the comparison entry plus -1 times the reference entry, with the adapter's noise and bias, to both value and correction, and sets the feasibility |
| TDRSDOWDModel.DifferenceMeaning | plugins/EstimationPlugin/src/base/adapter/TDRSDOWDAdapter.cpp:1278-1345 | after the walk every path's value minus correction equals the comparison's minus the reference's; without noise and bias the value is the comparison value minus the reference value; the feasibility is DowdFeasibility |
| TDRSDOWDModel.RunLegs | plugins/EstimationPlugin/src/base/adapter/TDRSDOWDAdapter.cpp:1160-1226 | the comparison sub-adapter computes with its own settings; only when it succeeds does the reference one compute, with noise and bias off and range only set; each record is the sub-adapter's or its failure, and a sub-adapter that does not run is unchanged |
| TDRSDOWDModel.Difference | plugins/EstimationPlugin/src/base/adapter/TDRSDOWDAdapter.cpp:1237-1445 | both sub-records' fields are read back, every path's difference appended, the error model's biases and sigmas taken for an SN_DOWD measurement with a path, and an epoch that fails the second check marks "EGAP"; a path the sub-records lack is an error |
| TDRSDOWDModel.Measure | plugins/EstimationPlugin/src/base/adapter/TDRSDOWDAdapter.cpp:1072-1450 | the measurement's new state is Calculated from the records the sub-adapters produce, and the sub-adapters change as LegsAfter says: an invalid epoch only marks "EGAP", an empty simulation list fails before any sub-adapter runs |
| TDRSDOWDModel.DifferenceRows | plugins/EstimationPlugin/src/base/adapter/TDRSDOWDAdapter.cpp:1613-1645 | row by row, each entry is comparison minus reference for Position, Velocity and CartesianX and the comparison's otherwise; a reference row of another width fails with the reference message, and a reference table with fewer rows fails |
| TDRSDOWDModel.TwoLegDerivatives | plugins/EstimationPlugin/src/base/adapter/TDRSDOWDAdapter.cpp:1539-1645 | a failing sub-adapter fails the derivative, comparison first; each table is copied and must be rectangular; the copies are then differenced by DifferenceRows |
| TDRSDOWDModel.StateDerivativeIsDifference | plugins/EstimationPlugin/src/base/adapter/TDRSDOWDAdapter.cpp:1632-1639 | a state derivative is the comparison derivative minus the reference derivative, entry by entry |
| TDRSDOWDModel.TDRSDOWDAdapter.constructor | plugins/EstimationPlugin/src/base/adapter/TDRSDOWDAdapter.cpp:93-123 | a new adapter is of type SN_DOWD, holds both TDRSs' default settings (count interval 1 s, node-4 frequency 2000 MHz, band 1), empty lists and no measurement model |
| TDRSDOWDModel.TDRSDOWDAdapter.SetServiceAccess | plugins/EstimationPlugin/src/base/adapter/TDRSDOWDAdapter.cpp:400-427 | for either TDRS: an index inside the list overwrites, the index equal to its length appends, any other fails and changes nothing; the other TDRS's list and the sub-adapters are untouched |
| TDRSDOWDModel.TDRSDOWDAdapter.GetServiceAccess | plugins/EstimationPlugin/src/base/adapter/TDRSDOWDAdapter.cpp:451-477 | the name at index of either list, or the out-of-bound message exactly when the index is outside it |
| TDRSDOWDModel.TDRSDOWDAdapter.SetRealParameter | plugins/EstimationPlugin/src/base/adapter/TDRSDOWDAdapter.cpp:705-741 | a count interval or node-4 frequency is accepted exactly when positive, then stored here and forwarded to that TDRS's sub-adapter and returned; a refused one fails with the TDRS's own message and changes nothing |
| TDRSDOWDModel.TDRSDOWDAdapter.SetIntegerParameter | plugins/EstimationPlugin/src/base/adapter/TDRSDOWDAdapter.cpp:554-595 | a node-4 band, SMA receiver id or data flag is stored unchecked here and on that TDRS's sub-adapter, whose answer is returned |
| TDRSDOWDModel.TDRSDOWDAdapter.SetBooleanParameter | plugins/EstimationPlugin/src/base/adapter/TDRSDOWDAdapter.cpp:782-802 | AddNoise is set false on both sub-adapters and to the value here; any other flag takes the value everywhere; the value is returned |
| TDRSDOWDModel.TDRSDOWDAdapter.Initialize | plugins/EstimationPlugin/src/base/adapter/TDRSDOWDAdapter.cpp:994-1020 | after the base adapter both service indices are reset, each list is handed to its sub-adapter, both sub-adapters are initialized and success needs both; without the base nothing changes and the answer is false |
| TDRSDOWDModel.TDRSDOWDAdapter.CalculateMeasurement | plugins/EstimationPlugin/src/base/adapter/TDRSDOWDAdapter.cpp:1072-1450 | the adapter's new state and outcome are those Measured states for its state before the call, and only the measured state changes |
| TDRSDOWDModel.TDRSDOWDAdapter.CalculateMeasurementDerivatives | plugins/EstimationPlugin/src/base/adapter/TDRSDOWDAdapter.cpp:1466-1645 | without a measurement model it fails; a Bias takes the model's derivatives for an SN_DOWD error model shared by more than one participant and a zero row otherwise; a PassBiases takes them for SN_DOWD; any other parameter differences the sub-adapters' tables |
| SpiceOrbitKernelReaderModel.LatchIsHarmless | src/base/spice/SpiceOrbitKernelReader.cpp:227-343 | the idOnKernel flag, which is never reset, makes the scan collect exactly the windows of the SPK kernels that list the body, as long as CSPICE reports no windows for a body a kernel does not list |
| SpiceOrbitKernelReaderModel.BoundsAreExtremes | src/base/spice/SpiceOrbitKernelReader.cpp:311-340 | the start the window loop leaves is at or before every window begin and is one of them; the end is at or after every window end and is one of them |
| SpiceOrbitKernelReaderModel.SpansAgreeWithStartAndEnd | src/base/spice/SpiceOrbitKernelReader.cpp:186-525 | GetCoverageSpans succeeds exactly when GetCoverageStartAndEnd does, with the same message otherwise; there is at least one span, every span lies within the start and end, and the start and the end are each a span's bound |
| SpiceOrbitKernelReaderModel.CollectedStep | src/base/spice/SpiceOrbitKernelReader.cpp:227-343 | one turn of the kernel loop moves the kernel's windows from the rest of the scan to the windows collected so far |
| SpiceOrbitKernelReaderModel.FoldWindows | src/base/spice/SpiceOrbitKernelReader.cpp:311-340 | the window loop leaves the earliest begin and latest end, in A.1, of all windows so far, the first window of all setting both |
| SpiceOrbitKernelReaderModel.ScanStartAndEnd | src/base/spice/SpiceOrbitKernelReader.cpp:210-350 | the kernel loop of GetCoverageStartAndEnd throws on a kernel whose type or coverage CSPICE cannot give, throws "no data" when no window is found, and otherwise returns the extremes of the collected windows |
| SpiceOrbitKernelReaderModel.AppendSpans | src/base/spice/SpiceOrbitKernelReader.cpp:485-507 | after one kernel, the start and end lists hold, in order, the A.1 start and end of every window collected so far followed by those of the kernel |
| SpiceOrbitKernelReaderModel.ScanSpans | src/base/spice/SpiceOrbitKernelReader.cpp:405-519 | the kernel loop of GetCoverageSpans returns one A.1 span per collected window in scan order, or the same exceptions |
| SpiceOrbitKernelReaderModel.TargetNameNormalises | src/base/spice/SpiceOrbitKernelReader.cpp:569-573 | the name passed to CSPICE is the upper-cased target name, so it does not depend on case, has no lower-case letter, is never LUNA or SOLARSYSTEMBARYCENTER, and maps to itself |
| SpiceOrbitKernelReaderModel.TargetNameExamples | src/base/spice/SpiceOrbitKernelReader.cpp:569-573 | Luna is asked for as MOON, SolarSystemBarycenter as SSB, and Mars as MARS |
| SpiceOrbitKernelReaderModel.GapSplit | src/base/spice/SpiceOrbitKernelReader.cpp:793-826 | a gap message is its bucket key, one separating character and its 25-character epoch, and messages differing only in their last 26 characters share a bucket |
| SpiceOrbitKernelReaderModel.WarningLinesCount | src/base/spice/SpiceOrbitKernelReader.cpp:910-930 | gap lines are shown only while fewer than 5 gaps are counted, a notice is shown exactly when the fifth gap is counted in this call, nothing after; each gap line shows a bucket under its own key |
| SpiceOrbitKernelReaderModel.SpiceOrbitKernelReader.constructor | src/base/spice/SpiceOrbitKernelReader.cpp:65-76 | a new reader has no loaded kernels, no coverage ranges, no stored gap messages and no gaps counted |
| SpiceOrbitKernelReaderModel.SpiceOrbitKernelReader.LoadMissing | src/base/spice/SpiceOrbitKernelReader.cpp:202-205 | every listed kernel that is not loaded is loaded, and nothing else changes |
| SpiceOrbitKernelReaderModel.SpiceOrbitKernelReader.GetCoverageStartAndEnd | src/base/spice/SpiceOrbitKernelReader.cpp:186-358 | loads the missing kernels and returns the start and end of the body's coverage, or the exception of the scan |
| SpiceOrbitKernelReaderModel.SpiceOrbitKernelReader.GetCoverageSpans | src/base/spice/SpiceOrbitKernelReader.cpp:391-525 | loads the missing kernels and returns one span per coverage window, or the exception of the scan |
| SpiceOrbitKernelReaderModel.SpiceOrbitKernelReader.StoreErrorMessage | src/base/spice/SpiceOrbitKernelReader.cpp:793-826 | a CSPICE message starting with "Insufficient ephemeris data" appends its epoch to its bucket, and exactly the other messages throw "Error getting state for body" with the message |
| SpiceOrbitKernelReaderModel.SpiceOrbitKernelReader.StoreCoverageRange | src/base/spice/SpiceOrbitKernelReader.cpp:882-897 | the coverage over the loaded kernels is kept under the id exactly when it can be computed, and otherwise its exception is thrown |
| SpiceOrbitKernelReaderModel.SpiceOrbitKernelReader.CheckIfInCoverageRange | src/base/spice/SpiceOrbitKernelReader.cpp:843-867 | the epoch is in range exactly when it lies within the body's kept coverage, ends included; the coverage is computed and kept on the first request only |
| SpiceOrbitKernelReaderModel.SpiceOrbitKernelReader.PrintWarningMessage | src/base/spice/SpiceOrbitKernelReader.cpp:910-930 | every bucket counts one gap, the shown lines are WarningLines of the buckets in key order, and the buckets are emptied |
| SpiceOrbitKernelReaderModel.SpiceOrbitKernelReader.PrintErrorMessage | src/base/spice/SpiceOrbitKernelReader.cpp:943-979 | with no bucket it does nothing; otherwise it counts one gap and throws the error for the first bucket in key order, with the first 24 characters of its epochs |
| SpiceOrbitKernelReaderModel.SpiceOrbitKernelReader.GetTargetState | src/base/spice/SpiceOrbitKernelReader.cpp:552-654 | a successful CSPICE call returns its state and shows and clears pending gaps; a failure that is not a gap throws and keeps the buckets and the gap count; a gap failure appends its epoch to its bucket (StoredGap), then throws the coverage computation's exception when there is no coverage, returns the -REAL_MAX sentinel when the epoch lies inside the coverage (KnownCoverage, ends included), and outside it counts one more gap and throws the error of the first bucket in key order |
| CcsdsEphPropagatorModel.AdvanceMovesByStep | plugins/EphemPropagatorPlugin/src/base/propagator/CcsdsEphPropagator.cpp:786-806 | when the epoch was moved since the last step, or the time from the ephemeris start agrees with the last epoch, a step moves the epoch by exactly the step size, the time from epoch grows by the step and the step taken is the step size |
| CcsdsEphPropagatorModel.SnappedWithinSlop | plugins/EphemPropagatorPlugin/src/base/propagator/CcsdsEphPropagator.cpp:847-885 | an epoch outside the span gets a place in it exactly when it misses the span by less than 1e-10 days, and that place is the nearer bound; an epoch inside the span stays where it is |
| CcsdsEphPropagatorModel.StepStaysInSpan | plugins/EphemPropagatorPlugin/src/base/propagator/CcsdsEphPropagator.cpp:786-942 | a step that does not throw leaves the epoch inside the span with the last epoch equal to it and the step recorded as taken |
| CcsdsEphPropagatorModel.StepFromInside | plugins/EphemPropagatorPlugin/src/base/propagator/CcsdsEphPropagator.cpp:786-942 | a step from strictly inside the span never throws, and ends at the epoch moved by the step, stopped at the bound it would cross |
| CcsdsEphPropagatorModel.StepOutFromBoundFails | plugins/EphemPropagatorPlugin/src/base/propagator/CcsdsEphPropagator.cpp:786-915 | a step that leaves the span from the bound it stands on, by at least 1e-10 days, throws |
| CcsdsEphPropagatorModel.OvershotCarriesOver | plugins/EphemPropagatorPlugin/src/base/propagator/CcsdsEphPropagator.cpp:786-797 | a step from inside the span that crosses the end stops at the end with the last epoch there, while the time from the ephemeris start exceeds the span by the overshoot; the next step does not recompute that time but adds its step to it (with line 939 of the same file, which sets the last epoch) |
| CcsdsEphPropagatorModel.CcsdsCoordinatesMapping | plugins/EphemPropagatorPlugin/src/base/propagator/CcsdsEphPropagator.cpp:1088-1134 | no conversion exactly for an empty frame or EME2000 about the Earth; otherwise an exception exactly for frames other than EME2000, ICRF, TOD, TDR and GRC, with GMAT's message; a conversion uses MJ2000Eq, ICRF, TODEq or BodyFixed about a body that is never Moon; TDR and GRC are both body-fixed |
| CcsdsEphPropagatorModel.EphemerisFileIsReadOnly | plugins/EphemPropagatorPlugin/src/base/propagator/CcsdsEphPropagator.cpp:321-437 | EphemerisFile is read-only, setting it is accepted, its indexed value is empty and an indexed set is refused; every other parameter is the base class's answer |
| CcsdsEphPropagatorModel.CentralBodyFor | plugins/EphemPropagatorPlugin/src/base/propagator/CcsdsEphPropagator.cpp:683-686 | the central body after loading is never Moon (it becomes Luna) and never empty (it becomes Earth) |
| CcsdsEphPropagatorModel.InitializeOutcomes | plugins/EphemPropagatorPlugin/src/base/propagator/CcsdsEphPropagator.cpp:602-748 | without the base class Initialize reports false and is not initialised, changing nothing else; with it, anything but exactly one object throws; it reports true exactly when the base class succeeds and nothing throws, and is then initialised |
| CcsdsEphPropagatorModel.InitializeLoadsFile | plugins/EphemPropagatorPlugin/src/base/propagator/CcsdsEphPropagator.cpp:620-723 | when the file is still to be loaded, a non-spacecraft, an empty file name and a file the file manager cannot find each throw GMAT's message, in that order; success means the file opened, its span became the propagator's, epoch and last epoch are the initial epoch, the time from the ephemeris start agrees with them, the central body is neither Moon nor empty, and the file's frame is supported |
| CcsdsEphPropagatorModel.StepOutcomes | plugins/EphemPropagatorPlugin/src/base/propagator/CcsdsEphPropagator.cpp:761-978 | a step reports true or throws, and a step that throws leaves the state, the object's epoch and its propagated flag untouched |
| CcsdsEphPropagatorModel.StepSucceedsInSpan | plugins/EphemPropagatorPlugin/src/base/propagator/CcsdsEphPropagator.cpp:761-978 | a step that reports true ends inside the span with the last epoch at the new epoch, the state read from the file there, the object at that epoch and flagged as propagated |
| CcsdsEphPropagatorModel.StepFromInsideSucceeds | plugins/EphemPropagatorPlugin/src/base/propagator/CcsdsEphPropagator.cpp:786-978 | a step from strictly inside the span always reports true, at the epoch moved by the step and stopped at the bound it would cross |
| CcsdsEphPropagatorModel.CcsdsEphPropagator.constructor | plugins/EphemPropagatorPlugin/src/base/propagator/CcsdsEphPropagator.cpp:79-102 | a new propagator has no file name and no data loaded, its time from the ephemeris start and last epoch hold -1 and it has no coordinate system of its own |
| CcsdsEphPropagatorModel.CcsdsEphPropagator.SetEphemSpan | plugins/EphemPropagatorPlugin/src/base/propagator/CcsdsEphPropagator.cpp:1070-1077 | the propagator's span becomes the file's, nothing else changes |
| CcsdsEphPropagatorModel.CcsdsEphPropagator.BuildCoordinates | plugins/EphemPropagatorPlugin/src/base/propagator/CcsdsEphPropagator.cpp:1088-1134 | the new coordinate system is CcsdsCoordinates' answer: kept when no conversion is needed, replaced by the file's axes about its central body, or dropped with the exception |
| CcsdsEphPropagatorModel.CcsdsEphPropagator.UpdateState | plugins/EphemPropagatorPlugin/src/base/propagator/CcsdsEphPropagator.cpp:1022-1057 | the state becomes the file's state at the epoch, converted when the file has its own coordinate system; nothing else changes |
| CcsdsEphPropagatorModel.CcsdsEphPropagator.Load | plugins/EphemPropagatorPlugin/src/base/propagator/CcsdsEphPropagator.cpp:628-720 | the object checks, the file lookup and the loading of Initialize do what LoadSpec says |
| CcsdsEphPropagatorModel.CcsdsEphPropagator.ReadFile | plugins/EphemPropagatorPlugin/src/base/propagator/CcsdsEphPropagator.cpp:677-694 | reading the file sets the span, marks the data loaded, fixes the central body and sets epoch and state to the initial epoch's, as ReadFileSpec says |
| CcsdsEphPropagatorModel.CcsdsEphPropagator.SetCentralBody | plugins/EphemPropagatorPlugin/src/base/propagator/CcsdsEphPropagator.cpp:683-686 | Moon becomes Luna and an empty central body becomes Earth; nothing else changes |
| CcsdsEphPropagatorModel.CcsdsEphPropagator.SetUpFrame | plugins/EphemPropagatorPlugin/src/base/propagator/CcsdsEphPropagator.cpp:696-718 | the coordinate system is built, then the last epoch, the time from the ephemeris start, the converted state and the object's epoch are set, as FrameSpec says |
| CcsdsEphPropagatorModel.CcsdsEphPropagator.Initialize | plugins/EphemPropagatorPlugin/src/base/propagator/CcsdsEphPropagator.cpp:602-748 | the new state and the answer are InitializeSpec's, about which InitializeOutcomes and InitializeLoadsFile are proved |
| CcsdsEphPropagatorModel.CcsdsEphPropagator.LoadObject | plugins/EphemPropagatorPlugin/src/base/propagator/CcsdsEphPropagator.cpp:625-747 | after the checks on the objects, the file is loaded when the state manager is set and nothing is loaded, then the object's epoch is set from the script and the propagator is initialised, as LoadAndFinish says |
| CcsdsEphPropagatorModel.CcsdsEphPropagator.Step | plugins/EphemPropagatorPlugin/src/base/propagator/CcsdsEphPropagator.cpp:761-978 | the new state and the answer are StepSpec's, about which StepOutcomes, StepSucceedsInSpan and StepFromInsideSucceeds are proved |
| CcsdsEphPropagatorModel.CcsdsEphPropagator.AdvanceEpoch | plugins/EphemPropagatorPlugin/src/base/propagator/CcsdsEphPropagator.cpp:786-806 | the clock moves as Advance says and nothing else changes |
| CcsdsEphPropagatorModel.CcsdsEphPropagator.SettleEpoch | plugins/EphemPropagatorPlugin/src/base/propagator/CcsdsEphPropagator.cpp:832-885 | the epoch is paused at the bound it crosses and snapped within 1e-10 days, as Settle says; the last epoch follows only when the epoch lies in the span |
| StkEPropagatorModel.StkCoordinatesMapping | plugins/EphemPropagatorPlugin/src/base/propagator/StkEPropagator.cpp:1121-1177 | no conversion exactly for an empty frame or J2000 about the Earth; otherwise an exception exactly for frames other than TrueOfDate, J2000, J2000_Ecliptic, Fixed and ICRF, with the advice to use J2000 or ICRF for "Inertial" and the generic message for any other; a conversion uses TODEq, MJ2000Eq, MJ2000Ec, BodyFixed or ICRF about a body that is never Moon |
| StkEPropagatorModel.SpanSpec | plugins/EphemPropagatorPlugin/src/base/propagator/StkEPropagator.cpp:1104-1110 | SetEphemSpan makes the file's span the propagator's and appends its start and end to the kept spans, which otherwise stay as they were |
| StkEPropagatorModel.InitializeNeverReportsTrue | plugins/EphemPropagatorPlugin/src/base/propagator/StkEPropagator.cpp:590-731 | Initialize never reports true: it reports false or throws; when the base class fails it reports false and only the object's epoch (from the script) changes; with the base class, anything but exactly one object throws |
| StkEPropagatorModel.InitializeLoadsFile | plugins/EphemPropagatorPlugin/src/base/propagator/StkEPropagator.cpp:617-704 | when the file is still to be loaded, a non-spacecraft, an empty file name and a file the file manager cannot find each throw GMAT's message, in that order; a load that does not throw opened the file, appended its span to the kept spans, put epoch and last epoch at the initial epoch with the time from the ephemeris start agreeing, fixed the central body and found the frame supported |
| StkEPropagatorModel.StepOutcomes | plugins/EphemPropagatorPlugin/src/base/propagator/StkEPropagator.cpp:743-878 | a step reports true or throws, and one that throws leaves the state, the object's epoch and its propagated flag untouched |
| StkEPropagatorModel.StepSucceedsInSpan | plugins/EphemPropagatorPlugin/src/base/propagator/StkEPropagator.cpp:743-878 | a step that reports true ends inside the span with the last epoch at the new epoch, the state read from the file there and converted there when the file has its own frame, and the object at that epoch and flagged as propagated |
| StkEPropagatorModel.StepFromInsideSucceeds | plugins/EphemPropagatorPlugin/src/base/propagator/StkEPropagator.cpp:762-830 | a step from strictly inside the span always reports true, at the epoch moved by the step and stopped at the bound it would cross |
| StkEPropagatorModel.AssignSpec | plugins/EphemPropagatorPlugin/src/base/propagator/StkEPropagator.cpp:150-182 | assignment copies the file name and the epoch, unloads the data, sets the last epoch to the epoch, and leaves the time from the ephemeris start at -1 exactly when the copied epoch is the -1 sentinel, agreeing with the epoch otherwise |
| StkEPropagatorModel.AssignedSentinelIsRecomputed | plugins/EphemPropagatorPlugin/src/base/propagator/StkEPropagator.cpp:150-182 | after an assignment from a propagator that never stepped, the first step from any other epoch recomputes the time from the ephemeris start, so the -1 sentinel is never used as a time |
| StkEPropagatorModel.StkEPropagator.constructor | plugins/EphemPropagatorPlugin/src/base/propagator/StkEPropagator.cpp:79-95 | a new propagator has no file name and no data loaded, its time from the ephemeris start and last epoch hold -1, it has no coordinate system of its own and no kept spans |
| StkEPropagatorModel.StkEPropagator.Assign | plugins/EphemPropagatorPlugin/src/base/propagator/StkEPropagator.cpp:150-182 | the new state is AssignSpec's |
| StkEPropagatorModel.StkEPropagator.SetEphemSpan | plugins/EphemPropagatorPlugin/src/base/propagator/StkEPropagator.cpp:1104-1110 | the new state is SpanSpec's |
| StkEPropagatorModel.StkEPropagator.BuildCoordinates | plugins/EphemPropagatorPlugin/src/base/propagator/StkEPropagator.cpp:1121-1177 | the new coordinate system is StkCoordinates' answer: kept when no conversion is needed, replaced by the file's axes about its central body, or dropped with the exception |
| StkEPropagatorModel.StkEPropagator.UpdateState | plugins/EphemPropagatorPlugin/src/base/propagator/StkEPropagator.cpp:1070-1091 | the state becomes the file's state at the epoch, converted at the last epoch when the file has its own coordinate system; nothing else changes |
| StkEPropagatorModel.StkEPropagator.Load | plugins/EphemPropagatorPlugin/src/base/propagator/StkEPropagator.cpp:617-704 | the object checks, the file lookup and the loading of Initialize do what LoadSpec says |
| StkEPropagatorModel.StkEPropagator.ReadFile | plugins/EphemPropagatorPlugin/src/base/propagator/StkEPropagator.cpp:647-656 | reading the file sets and keeps its span, marks the data loaded and fixes the central body |
| StkEPropagatorModel.StkEPropagator.SetCentralBody | plugins/EphemPropagatorPlugin/src/base/propagator/StkEPropagator.cpp:653-656 | Moon becomes Luna and an empty central body becomes Earth; nothing else changes |
| StkEPropagatorModel.StkEPropagator.SetUpFrame | plugins/EphemPropagatorPlugin/src/base/propagator/StkEPropagator.cpp:660-702 | the coordinate system is built, then the epoch and state are set, as FrameSpec says |
| StkEPropagatorModel.StkEPropagator.Start | plugins/EphemPropagatorPlugin/src/base/propagator/StkEPropagator.cpp:663-702 | epoch, last epoch and object's epoch become the initial epoch, the time from the ephemeris start agrees with it and the state is the file's there, converted there, as StartSpec says |
| StkEPropagatorModel.StkEPropagator.Initialize | plugins/EphemPropagatorPlugin/src/base/propagator/StkEPropagator.cpp:590-731 | the new state and the answer are InitializeSpec's, about which InitializeNeverReportsTrue and InitializeLoadsFile are proved |
| StkEPropagatorModel.StkEPropagator.LoadObject | plugins/EphemPropagatorPlugin/src/base/propagator/StkEPropagator.cpp:614-730 | after the checks on the objects, the file is loaded when the state manager is set and nothing is loaded, then the object takes the epoch from the script, and the answer is false |
| StkEPropagatorModel.StkEPropagator.Step | plugins/EphemPropagatorPlugin/src/base/propagator/StkEPropagator.cpp:743-878 | the new state and the answer are StepSpec's, about which StepOutcomes, StepSucceedsInSpan and StepFromInsideSucceeds are proved |
| StkEPropagatorModel.StkEPropagator.AdvanceEpoch | plugins/EphemPropagatorPlugin/src/base/propagator/StkEPropagator.cpp:762-776 | the clock moves as Advance says and nothing else changes |
| StkEPropagatorModel.StkEPropagator.SettleEpoch | plugins/EphemPropagatorPlugin/src/base/propagator/StkEPropagator.cpp:785-849 | the epoch is paused at the bound it crosses and snapped within 1e-10 days, as Settle says; the last epoch follows only when the epoch lies in the span |
| StkEPropagatorModel.ParametersAsCcsds | plugins/EphemPropagatorPlugin/src/base/propagator/StkEPropagator.cpp:300-425 | for every parameter the STK propagator's read-only test, string setter and indexed getter and setter give the CCSDS-OEM propagator's answers; in particular EphemerisFile is read-only, setting it is accepted, its indexed value is empty and an indexed set is refused |
| SPKPropagatorModel.SetStringPromises | plugins/EphemPropagatorPlugin/src/base/propagator/SPKPropagator.cpp:332-360 | the corrected setter: a non-empty kernel name joins the list once and is always accepted; any other parameter reports the base class's answer and leaves the list alone; "Moon" as central body is an exception exactly when the base class takes it; the SPICE body changes only for an accepted central body and is then that body with Luna spelled Moon |
| SPKPropagatorModel.RefusedValueReportedAsSet | plugins/EphemPropagatorPlugin/src/base/propagator/SPKPropagator.cpp:345-359 | the setter as written reports true for a value the base class refused and throws for "Moon" even when the base class did not take it; the corrected setter reports false in both cases |
| SPKPropagatorModel.KernelListAccess | plugins/EphemPropagatorPlugin/src/base/propagator/SPKPropagator.cpp:278-283 | the kernel list is read-only to users; an index inside the list reads back what was set there and setting changes that entry alone; an index outside reads "" and cannot be set (with lines 375-386 and 403-417 of the same file) |
| SPKPropagatorModel.SPKPropagator.SetStringParameter | plugins/EphemPropagatorPlugin/src/base/propagator/SPKPropagator.cpp:332-360 | the propagator's kernel list, central body and SPICE body become what the corrected setter gives, and its answer or exception is returned; nothing else changes |
| SPKPropagatorModel.SPKPropagator.SetIndexedStringParameter | plugins/EphemPropagatorPlugin/src/base/propagator/SPKPropagator.cpp:403-417 | the indexed setter on the propagator's fields, nothing else changing |
| SPKPropagatorModel.SPKPropagator.constructor | plugins/EphemPropagatorPlugin/src/base/propagator/SPKPropagator.cpp:75-86 | a new propagator has no reader, no kernels and no NAIF ids, gives the off-ephemeris warning, and queries SPICE about the base class's central body |
| SPKPropagatorModel.AssignSpec | plugins/EphemPropagatorPlugin/src/base/propagator/SPKPropagator.cpp:138-150 | operator= leaves no reader, copies the warning flag and SPICE body, and keeps the kernel list, ids, clock and state |
| SPKPropagatorModel.SPKPropagator.Assign | plugins/EphemPropagatorPlugin/src/base/propagator/SPKPropagator.cpp:138-150 | the propagator's fields become AssignSpec of the old ones |
| SPKPropagatorModel.KernelsLoaded | plugins/EphemPropagatorPlugin/src/base/propagator/SPKPropagator.cpp:641-664 | the kernel loop only extends the kernel list and the loaded kernels and keeps the list free of repeats; it passes exactly when every kernel has a path, and then every path is listed and loaded; otherwise the exception names the first kernel with no path |
| SPKPropagatorModel.SPKPropagator.LoadKernels | plugins/EphemPropagatorPlugin/src/base/propagator/SPKPropagator.cpp:641-664 | the loop's effect on the fields and its outcome are KernelsSpec's |
| SPKPropagatorModel.SPKPropagator.LoadSpans | plugins/EphemPropagatorPlugin/src/base/propagator/SPKPropagator.cpp:847-857 | the reader's coverage spans of the first NAIF id over the kernel list, cleared when the reader throws |
| SPKPropagatorModel.ObjectSpec | plugins/EphemPropagatorPlugin/src/base/propagator/SPKPropagator.cpp:621-668 | loading the object appends its NAIF id and leaves the reader alone |
| SPKPropagatorModel.ObjectLoads | plugins/EphemPropagatorPlugin/src/base/propagator/SPKPropagator.cpp:621-668 | the object's checks come in GMAT's order (not a spacecraft, then no kernel); a load that does not throw has the one NAIF id, lists and loads every kernel's path and holds the reader's spans for that id |
| SPKPropagatorModel.CoverageIsLastId | plugins/EphemPropagatorPlugin/src/base/propagator/SPKPropagator.cpp:1347-1355 | the coverage loop passes exactly when the reader has a span for every NAIF id, and the span is then the last id's |
| SPKPropagatorModel.EphemSpanSpec | plugins/EphemPropagatorPlugin/src/base/propagator/SPKPropagator.cpp:1341-1361 | SetEphemSpan keeps the kernel list, the NAIF ids and the reader |
| SPKPropagatorModel.ReaderSpanSpec | plugins/EphemPropagatorPlugin/src/base/propagator/SPKPropagator.cpp:1347-1360 | with a reader, SetEphemSpan changes only the loaded kernels and the span |
| SPKPropagatorModel.SpanIsReaders | plugins/EphemPropagatorPlugin/src/base/propagator/SPKPropagator.cpp:1341-1361 | with one NAIF id the span is the reader's start and end for it, or the base class's span of them when no initial ephemeris epoch is set; a reader exception is passed on |
| SPKPropagatorModel.SPKPropagator.SetEphemSpan | plugins/EphemPropagatorPlugin/src/base/propagator/SPKPropagator.cpp:1341-1361 | the fields and outcome are EphemSpanSpec's |
| SPKPropagatorModel.SPKPropagator.Coverage | plugins/EphemPropagatorPlugin/src/base/propagator/SPKPropagator.cpp:1351-1353 | the loop over the NAIF ids leaves the span CoverageOver gives, including the span reached when the reader throws |
| SPKPropagatorModel.FirstStateAtStartEpoch | plugins/EphemPropagatorPlugin/src/base/propagator/SPKPropagator.cpp:755-806 | the first state is taken at the initial epoch moved by the time from it; outside the span it is an exception exactly when the propagator stops, and otherwise the unset state with the warning spent; inside it is SPICE's state for the NAIF id, a SPICE error being an exception |
| SPKPropagatorModel.SPKPropagator.SetFirstState | plugins/EphemPropagatorPlugin/src/base/propagator/SPKPropagator.cpp:755-806 | the fields and answer are FirstStateSpec's |
| SPKPropagatorModel.InitializeOutcomes | plugins/EphemPropagatorPlugin/src/base/propagator/SPKPropagator.cpp:593-619 | Initialize answers false and changes nothing when the base class fails; with it, anything but one object is an exception after the reader is made; without the state manager it answers false with a reader, no NAIF id and no step taken |
| SPKPropagatorModel.LoadedInitializeNeverFalse | plugins/EphemPropagatorPlugin/src/base/propagator/SPKPropagator.cpp:619-817 | once the state manager is set, Initialize answers true or throws |
| SPKPropagatorModel.SPKPropagator.Initialize | plugins/EphemPropagatorPlugin/src/base/propagator/SPKPropagator.cpp:585-834 | the propagator's fields and answer are InitializeSpec's |
| SPKPropagatorModel.StepOutcomes | plugins/EphemPropagatorPlugin/src/base/propagator/SPKPropagator.cpp:869-1118 | a step answers true, false or throws; it answers false exactly when there is a reader and the advanced epoch is off the span and the propagator does not stop; a step that throws leaves the state, the spacecraft's epoch and its propagated flag alone |
| SPKPropagatorModel.StepInSpan | plugins/EphemPropagatorPlugin/src/base/propagator/SPKPropagator.cpp:998-1098 | a step that stays in the span with SPICE answering moves the epoch by the step, stores SPICE's state there, hands the epoch to the spacecraft and marks it propagated |
| SPKPropagatorModel.StepKeepsGoingOffSpan | plugins/EphemPropagatorPlugin/src/base/propagator/SPKPropagator.cpp:1016-1098 | a step off the span that does not stop answers false but stores the unset state and moves the last epoch and the spacecraft's epoch there; a failed SPICE query inside the span is swallowed when the precision-time epoch lies inside, leaving the unset state |
| SPKPropagatorModel.SPKPropagator.Step | plugins/EphemPropagatorPlugin/src/base/propagator/SPKPropagator.cpp:869-1118 | the fields and answer are StepSpec's |
| SPKPropagatorModel.UpdateStateReadsEpoch | plugins/EphemPropagatorPlugin/src/base/propagator/SPKPropagator.cpp:1163-1328 | UpdateState changes the state alone; inside the span it is SPICE's state at the epoch and a SPICE error is always an exception; outside it is an exception exactly when the propagator stops |
| SPKPropagatorModel.SPKPropagator.UpdateState | plugins/EphemPropagatorPlugin/src/base/propagator/SPKPropagator.cpp:1163-1328 | the fields and outcome are UpdateStateSpec's |
| ContactLocatorModel.OwnNamesRoundTrip | plugins/EventLocatorPlugin/src/base/locator/ContactLocator.cpp:60-69 | every own parameter's scripted name gives that parameter back, and a name found among the own names is that parameter's scripted name (with lines 301-328 of the same file) |
| ContactLocatorModel.TargetAndOtherIds | plugins/EventLocatorPlugin/src/base/locator/ContactLocator.cpp:306 | "Target" names the base class's spacecraft field; "Spacecraft" is an exception advising "Target"; any other unknown name is the base class's id (with lines 329-339 of the same file) |
| ContactLocatorModel.NumericSettersRefuseNegatives | plugins/EventLocatorPlugin/src/base/locator/ContactLocator.cpp:411-428 | exactly the negative precisions and interval steps are refused, with nothing changed; an accepted value is stored; a non-zero step turns interval reporting on and a setter never turns it off (with lines 505-527 of the same file) |
| ContactLocatorModel.ObserverNameAddedOnce | plugins/EventLocatorPlugin/src/base/locator/ContactLocator.cpp:670-684 | an observer name joins the list only when absent, the list stays free of repeats, the setter always answers true and nothing else changes |
| ContactLocatorModel.LightTimeSetterRule | plugins/EventLocatorPlugin/src/base/locator/ContactLocator.cpp:648-669 | the light time direction is refused exactly for values other than Transmit and Receive, with nothing changed; otherwise it is stored |
| ContactLocatorModel.TimeFormatSetterRule | plugins/EventLocatorPlugin/src/base/locator/ContactLocator.cpp:685-694 | the report time format is refused exactly outside UTCGregorian, UTCMJD and ISOYD, with nothing changed; otherwise it is stored |
| ContactLocatorModel.TemplateSetterRule | plugins/EventLocatorPlugin/src/base/locator/ContactLocator.cpp:695-704 | the report template is refused exactly outside the five templates, with nothing changed; otherwise it is stored |
| ContactLocatorModel.OtherStringsGoToBase | plugins/EventLocatorPlugin/src/base/locator/ContactLocator.cpp:706 | any other string parameter changes nothing of the locator's and returns the base class's answer |
| ContactLocatorModel.NegativeObserverIndexPasses | plugins/EventLocatorPlugin/src/base/locator/ContactLocator.cpp:727-728 | as written, index -1 on a one-observer list passes the range test of the indexed getter and setter; the corrected getter refuses it and the corrected setter appends (with lines 762-770 of the same file) |
| ContactLocatorModel.ObserverIndexRules | plugins/EventLocatorPlugin/src/base/locator/ContactLocator.cpp:722-785 | the corrected indexed setter ignores a name already present, overwrites inside the list (reading back at that index, other entries kept) and appends otherwise, always answering true and never duplicating; the getter succeeds exactly inside the list |
| ContactLocatorModel.RenameRenamesEvery | plugins/EventLocatorPlugin/src/base/locator/ContactLocator.cpp:1318-1343 | for a ground station or unknown type every observer of the old name takes the new one and every other is kept, so the old name is gone; the answer is whether any observer matched or the base class renamed |
| ContactLocatorModel.ClearAllKeepsEvents | plugins/EventLocatorPlugin/src/base/locator/ContactLocator.cpp:1368-1389 | as written, clearing with empty data keeps the contact results; the corrected clear empties observers and results |
| ContactLocatorModel.ClearEmptiesWhatItNames | plugins/EventLocatorPlugin/src/base/locator/ContactLocator.cpp:1358-1394 | the corrected clear empties exactly the lists its data names and nothing else, and agrees with the code as written for every data but "" |
| ContactLocatorModel.AbcorrPrefix | plugins/EventLocatorPlugin/src/base/locator/ContactLocator.cpp:2854-2862 | the correction is the base class's prefixed with X exactly when light time is used in the Transmit direction, and the base class's otherwise |
| ContactLocatorModel.PassingObserver | plugins/EventLocatorPlugin/src/base/locator/ContactLocator.cpp:1428-1535 | an observer that passes is a ground station or spacecraft; a spacecraft needs a field of view unless the target is a region; an observer with a field of view sits on Luna, a planet or (testing) a moon; otherwise, for a spacecraft target, on a planet or moon, with a tested body for non-Legacy reports; a Legacy ground station on a planet always passes |
| ContactLocatorModel.CheckAllFirstFailure | plugins/EventLocatorPlugin/src/base/locator/ContactLocator.cpp:1428-1535 | the observer list passes exactly when every observer passes, and a refusal names the first observer that fails with its fault |
| ContactLocatorModel.CheckObservers | plugins/EventLocatorPlugin/src/base/locator/ContactLocator.cpp:1428-1535 | the loop over the observers returns the first refusal, or none |
| ContactLocatorModel.ColumnRules | plugins/EventLocatorPlugin/src/base/locator/ContactLocator.cpp:1583-1660 | among the known templates only AzimuthElevationRangeReport keeps interval reporting and it is refused without intervals; the others zero the step; Legacy alone has no columns; the others have at least six starting with PassNumber or Observer; nothing else changes |
| ContactLocatorModel.InitializeChecksRules | plugins/EventLocatorPlugin/src/base/locator/ContactLocator.cpp:1416-1660 | Initialize's checks pass exactly when a region target has at most one observer, every observer resolved and passes, the kernels are written or the locator is disabled, and the template's columns can be set up; a refused observer is in the list and its fault is its check's |
| ContactLocatorModel.InitializeAnswers | plugins/EventLocatorPlugin/src/base/locator/ContactLocator.cpp:1407-1667 | Initialize answers false exactly when the base class fails, true exactly when the checks pass, and changes the locator only on success |
| ContactLocatorModel.BisectBrackets | plugins/EventLocatorPlugin/src/base/locator/ContactLocator.cpp:2745-2792 | after n halvings the bracket stays inside [low, high] and is 2^n times narrower; a moved high end tests like the starting side and a moved low end does not |
| ContactLocatorModel.Halve | plugins/EventLocatorPlugin/src/base/locator/ContactLocator.cpp:2766-2786 | the halving loop leaves the bracket the bisection defines |
| ContactLocatorModel.InterpolateRegionCrossing | plugins/EventLocatorPlugin/src/base/locator/ContactLocator.cpp:2745-2792 | the result is the midpoint of the bracket after 30 halvings, which lies inside [low, high] between ends on either side of the crossing |
| ContactLocatorModel.SentinelStartReorders | plugins/EventLocatorPlugin/src/base/locator/ContactLocator.cpp:2229-2248 | as written, an event starting at -1 is taken for the sentinel: of events starting at -1 and 5 the later is numbered first |
| ContactLocatorModel.ScanAsWrittenPicksEarliest | plugins/EventLocatorPlugin/src/base/locator/ContactLocator.cpp:2229-2248 | as written, when no start is -1 the scan picks an unnumbered event that starts before, or at the same time and earlier in the list than, every other unnumbered event |
| ContactLocatorModel.FirstEarliest | plugins/EventLocatorPlugin/src/base/locator/ContactLocator.cpp:2229-2248 | the corrected scan finds an unnumbered event exactly when one exists, and it is the first with the earliest start |
| ContactLocatorModel.NumberNext | plugins/EventLocatorPlugin/src/base/locator/ContactLocator.cpp:2229-2249 | numbering the first earliest unnumbered event next keeps the numbers distinct, below the count, and in start order |
| ContactLocatorModel.NumberEvents | plugins/EventLocatorPlugin/src/base/locator/ContactLocator.cpp:2228-2249 | every event gets a distinct number in 0..n-1 and a lower number means an earlier start, ties kept in list order |
| ContactLocatorModel.HalvedIdBounds | plugins/EventLocatorPlugin/src/base/locator/ContactLocator.cpp:2957-2961 | the halved frame id has at most seven digits and keeps its sign; one within the limit is unchanged and one halved keeps at least half the limit |
| ContactLocatorModel.ImagerFrameId | plugins/EventLocatorPlugin/src/base/locator/ContactLocator.cpp:2957-2962 | the imager's id is ten times the host's NAIF id halved to at most seven digits, less the imager's position |
| ContactLocatorModel.FrameNameRules | plugins/EventLocatorPlugin/src/base/locator/ContactLocator.cpp:2964-2969 | the frame name is at most 26 characters; a short one is the upper-case host name, '_', and the upper-case imager name; a long one is cut to 25 |
| ContactLocatorModel.ContactLocator.constructor | plugins/EventLocatorPlugin/src/base/locator/ContactLocator.cpp:105-117 | a new locator has no observers or results, light time Transmit and a 10 second step |
| ContactLocatorModel.ContactLocator.Assign | plugins/EventLocatorPlugin/src/base/locator/ContactLocator.cpp:217-258 | every field, the observer list and the results become the other locator's; the name is kept, and self-assignment changes nothing |
| ContactLocatorModel.ContactLocator.SetIntegerParameter | plugins/EventLocatorPlugin/src/base/locator/ContactLocator.cpp:411-428 | the precision is set or refused as the setter rule says; any other id changes nothing and returns the base class's answer |
| ContactLocatorModel.ContactLocator.SetRealParameter | plugins/EventLocatorPlugin/src/base/locator/ContactLocator.cpp:505-576 | the interval step is set or refused as the setter rule says; any other id changes nothing and returns the base class's answer |
| ContactLocatorModel.ContactLocator.SetStringParameter | plugins/EventLocatorPlugin/src/base/locator/ContactLocator.cpp:641-707 | the locator's fields and answer are those of the string setter rules |
| ContactLocatorModel.ContactLocator.SetLightTime | plugins/EventLocatorPlugin/src/base/locator/ContactLocator.cpp:648-669 | the light time branch of the string setter |
| ContactLocatorModel.ContactLocator.AddObserverName | plugins/EventLocatorPlugin/src/base/locator/ContactLocator.cpp:670-684 | the observer branch of the string setter |
| ContactLocatorModel.ContactLocator.SetTimeFormat | plugins/EventLocatorPlugin/src/base/locator/ContactLocator.cpp:685-694 | the time format branch of the string setter |
| ContactLocatorModel.ContactLocator.SetTemplate | plugins/EventLocatorPlugin/src/base/locator/ContactLocator.cpp:695-704 | the template branch of the string setter |
| ContactLocatorModel.ContactLocator.GetStringParameterAt | plugins/EventLocatorPlugin/src/base/locator/ContactLocator.cpp:722-740 | the observer list read through the corrected index test; other ids are the base class's |
| ContactLocatorModel.ContactLocator.SetStringParameterAt | plugins/EventLocatorPlugin/src/base/locator/ContactLocator.cpp:752-785 | the observer list set through the corrected index rule, nothing else changing; other ids are the base class's |
| ContactLocatorModel.ContactLocator.SetBooleanParameter | plugins/EventLocatorPlugin/src/base/locator/ContactLocator.cpp:967-975 | LeftJustified is stored and true returned; other ids change nothing and return the base class's answer |
| ContactLocatorModel.ContactLocator.RenameRefObject | plugins/EventLocatorPlugin/src/base/locator/ContactLocator.cpp:1318-1343 | the observer names and answer are those of the rename rule, nothing else changing |
| ContactLocatorModel.ContactLocator.TakeAction | plugins/EventLocatorPlugin/src/base/locator/ContactLocator.cpp:1358-1394 | Clear changes the locator as the corrected clear does; other actions change nothing and return the base class's answer |
| ContactLocatorModel.ContactLocator.Initialize | plugins/EventLocatorPlugin/src/base/locator/ContactLocator.cpp:1407-1667 | the fields and answer are those Initialize's checks and column set-up give, and the locating string is set whenever no exception is thrown |
| ContactLocatorModel.ContactLocator.RunChecks | plugins/EventLocatorPlugin/src/base/locator/ContactLocator.cpp:1416-1660 | the checks and column set-up of Initialize on the current fields |
| IntrusionLocatorModel.NamesRoundTrip | plugins/EventLocatorPlugin/src/base/locator/IntrusionLocator.cpp:57-66 | every own parameter's scripted name gives that parameter back, a name found among the own names is that parameter's scripted name, and any other name is the base class's id (with lines 298-327 of the same file) |
| IntrusionLocatorModel.CoordinatesSetterRule | plugins/EventLocatorPlugin/src/base/locator/IntrusionLocator.cpp:377-386 | the report coordinates are refused exactly for values other than SpacecraftOrigin and FixedGrid, with the message naming the value and nothing changed; an accepted value is stored and reads back (with lines 408-429 of the same file) |
| IntrusionLocatorModel.CentralBodySetterRule | plugins/EventLocatorPlugin/src/base/locator/IntrusionLocator.cpp:377-386 | the central body is refused exactly for values other than Earth, with the message naming the value and nothing changed; Earth is stored and reads back (with lines 446-461 of the same file) |
| IntrusionLocatorModel.NameListsAddOnce | plugins/EventLocatorPlugin/src/base/locator/IntrusionLocator.cpp:430-445 | a sensor or intruding-body name joins its list only when absent, the list stays free of repeats, the setter always answers true and nothing else changes (with lines 462-470 of the same file) |
| IntrusionLocatorModel.OtherSetterRules | plugins/EventLocatorPlugin/src/base/locator/IntrusionLocator.cpp:471-477 | the grid frame file is stored as given and reads back; any other parameter leaves the fields alone with the base class's answer |
| IntrusionLocatorModel.MinimumPhaseRange | plugins/EventLocatorPlugin/src/base/locator/IntrusionLocator.cpp:772-791 | the minimum phase is accepted exactly when it lies in [0, 1], end points included; a refused value changes nothing and gets the message naming it |
| IntrusionLocatorModel.NegativeListIndexPasses | plugins/EventLocatorPlugin/src/base/locator/IntrusionLocator.cpp:495-513 | an index of -1 passes the range tests as written (read from one sensor, not appended to the bodies), while the corrected getter refuses it and the corrected setter appends (with lines 534-586 of the same file) |
| IntrusionLocatorModel.GetAtRules | plugins/EventLocatorPlugin/src/base/locator/IntrusionLocator.cpp:492-514 | the corrected indexed getter answers exactly inside the list, with the list's own message otherwise, and reads back what the indexed setter wrote, at its index or appended at the end; the list stays free of repeats (with lines 531-588 of the same file) |
| IntrusionLocatorModel.RenameFirstOnly | plugins/EventLocatorPlugin/src/base/locator/IntrusionLocator.cpp:1145-1172 | only the first entry of the old name is renamed; every other entry, including a later one of the same name, is kept |
| IntrusionLocatorModel.RenameFirstOnDistinct | plugins/EventLocatorPlugin/src/base/locator/IntrusionLocator.cpp:1145-1155 | on a list without repeats, as the setters keep them, renaming the first match renames every match (with lines 430-445 of the same file) |
| IntrusionLocatorModel.RenameOrder | plugins/EventLocatorPlugin/src/base/locator/IntrusionLocator.cpp:1138-1209 | hardware renames only a sensor, a celestial body only the central body or then an intruding body, an unknown type searches sensors, central body, intruding bodies in that order; the first hit answers true without the base class, and otherwise the base class's answer is returned |
| IntrusionLocatorModel.ClearAllKeepsResults | plugins/EventLocatorPlugin/src/base/locator/IntrusionLocator.cpp:1228-1254 | "Clear" with empty data, as written, keeps the intrusion results, while the corrected clear empties both the sensors and the results |
| IntrusionLocatorModel.ClearEmptiesWhatItNames | plugins/EventLocatorPlugin/src/base/locator/IntrusionLocator.cpp:1228-1254 | the corrected clear empties exactly the sensors or results it names, never the intruding bodies or the settings, and agrees with the clear as written for all data but "" |
| IntrusionLocatorModel.FramesForRules | plugins/EventLocatorPlugin/src/base/locator/IntrusionLocator.cpp:1322-1504 | the frames come one per imager, each that imager's frame id, and fail exactly when an imager fails, with the first failing imager's fault |
| IntrusionLocatorModel.FrameIdsDistinct | plugins/EventLocatorPlugin/src/base/locator/IntrusionLocator.cpp:1324-1345 | a frame id is the spacecraft's NAIF id times 1000 less the hardware index, so it lies in that block of ids, and imagers of different names get different ids |
| IntrusionLocatorModel.InitializeRules | plugins/EventLocatorPlugin/src/base/locator/IntrusionLocator.cpp:1269-1545 | with the base class initialised and the run enabled, Initialize succeeds exactly when every sensor resolved to attached hardware with a conical or rectangular field of view, the coordinates are FixedGrid and the grid frame file has a class id; the frame ids are then those of the imagers; the default SpacecraftOrigin coordinates always make it throw |
| IntrusionLocatorModel.HardwareIndex | plugins/EventLocatorPlugin/src/base/locator/IntrusionLocator.cpp:1324-1334 | the loop finds the first hardware name equal to the imager's, or -1 when there is none |
| IntrusionLocatorModel.MakeFrames | plugins/EventLocatorPlugin/src/base/locator/IntrusionLocator.cpp:1322-1504 | the per-imager loop of Initialize gives the frames of all imagers in order, or the first imager's fault |
| IntrusionLocatorModel.SensorFrameOf | plugins/EventLocatorPlugin/src/base/locator/IntrusionLocator.cpp:1324-1500 | one imager's frame: not attached, SpacecraftOrigin, an unknown frame, no class id and an unsupported field of view are the faults, checked in that order |
| IntrusionLocatorModel.InstrumentIds | plugins/EventLocatorPlugin/src/base/locator/IntrusionLocator.cpp:1503 | the SPICE instrument name of each frame is "INS" followed by its id, one per frame in order |
| IntrusionLocatorModel.UninitialisedClassIdFlag | plugins/EventLocatorPlugin/src/base/locator/IntrusionLocator.cpp:1396-1443 | a grid frame file with no CLASS_ID line passes the check as written when the uninitialised flag holds true, and is refused with the class-id fault when the flag starts false |
| IntrusionLocatorModel.RemainingDecreases | plugins/EventLocatorPlugin/src/base/locator/IntrusionLocator.cpp:1693-1752 | every branch of the sampling loop brings it nearer its end, when the step is positive |
| IntrusionLocatorModel.SampleEpochs | plugins/EventLocatorPlugin/src/base/locator/IntrusionLocator.cpp:1691-1752 | the sampling loop gives no sample for an empty interval; otherwise the first sample is the interval's start, the last its end, all lie in the interval, and the samples rise by stepSize/86400 days except a last shorter, positive step to the end |
| IntrusionLocatorModel.SampleStep | plugins/EventLocatorPlugin/src/base/locator/IntrusionLocator.cpp:1745-1751 | each pass of the sampling loop keeps the loop's invariant |
| IntrusionLocatorModel.SamplesDone | plugins/EventLocatorPlugin/src/base/locator/IntrusionLocator.cpp:1693 | when the loop's test fails, the samples are the grid the loop promises |
| IntrusionLocatorModel.SamplesIncrease | plugins/EventLocatorPlugin/src/base/locator/IntrusionLocator.cpp:1691-1752 | the samples rise strictly, so the interval's end is sampled exactly once, last, and its start exactly once, first |
| IntrusionLocatorModel.PhaseBoundAgrees | plugins/EventLocatorPlugin/src/base/locator/IntrusionLocator.cpp:1650 | a body's phase angle is within the bound given to the search exactly when its reported phase is at least the minimum phase; an accepted minimum phase keeps the bound within [0, pi] and a phase angle in [0, pi] gives a reported phase in [0, 1] (with lines 1733-1741 of the same file) |
| IntrusionLocatorModel.XAngleRange | plugins/EventLocatorPlugin/src/base/locator/IntrusionLocator.cpp:1719-1724 | the first report angle lies in [0, 180], at most 90 for positive x and at least 90 for negative x, and the two sides are mirror images |
| IntrusionLocatorModel.SearchInputs | plugins/EventLocatorPlugin/src/base/locator/IntrusionLocator.cpp:1626-1633 | the instrument name is the spacecraft's name in upper case, '_', then the sensor's; the central body, when named, is the only occulting body |
| IntrusionLocatorModel.IntrusionLocator.constructor | plugins/EventLocatorPlugin/src/base/locator/IntrusionLocator.cpp:91-117 | a new locator has central body Earth, minimum phase 0, SpacecraftOrigin coordinates, no grid frame file, no sensors, bodies or results, and a 10-second step |
| IntrusionLocatorModel.IntrusionLocator.Assign | plugins/EventLocatorPlugin/src/base/locator/IntrusionLocator.cpp:208-263 | the assignment copies every field, both name lists and the results, and keeps the name; self-assignment changes nothing |
| IntrusionLocatorModel.IntrusionLocator.SetStringParameter | plugins/EventLocatorPlugin/src/base/locator/IntrusionLocator.cpp:401-477 | the string setter changes the fields and answers as the setter rules say |
| IntrusionLocatorModel.IntrusionLocator.SetCoordinates | plugins/EventLocatorPlugin/src/base/locator/IntrusionLocator.cpp:408-429 | the report coordinates branch as the setter rules say |
| IntrusionLocatorModel.IntrusionLocator.AddSensorName | plugins/EventLocatorPlugin/src/base/locator/IntrusionLocator.cpp:430-445 | the sensor branch appends an absent name |
| IntrusionLocatorModel.IntrusionLocator.SetCentralBody | plugins/EventLocatorPlugin/src/base/locator/IntrusionLocator.cpp:446-461 | the central body branch as the setter rules say |
| IntrusionLocatorModel.IntrusionLocator.AddBodyName | plugins/EventLocatorPlugin/src/base/locator/IntrusionLocator.cpp:462-470 | the intruding-body branch appends an absent name |
| IntrusionLocatorModel.IntrusionLocator.GetStringParameter | plugins/EventLocatorPlugin/src/base/locator/IntrusionLocator.cpp:377-386 | the string getter answers the coordinates, the central body, the grid frame file or the base class's value |
| IntrusionLocatorModel.IntrusionLocator.GetStringParameterAt | plugins/EventLocatorPlugin/src/base/locator/IntrusionLocator.cpp:492-514 | the corrected indexed getter on the sensors and the intruding bodies, each with its own message |
| IntrusionLocatorModel.IntrusionLocator.SetStringParameterAt | plugins/EventLocatorPlugin/src/base/locator/IntrusionLocator.cpp:531-588 | the corrected indexed setter on the sensors and the intruding bodies: a listed name is ignored, an index inside the list overwrites, any other appends; the answer is true |
| IntrusionLocatorModel.IntrusionLocator.SetRealParameter | plugins/EventLocatorPlugin/src/base/locator/IntrusionLocator.cpp:772-791 | the real setter as the minimum-phase rule says; other parameters are the base class's |
| IntrusionLocatorModel.IntrusionLocator.RenameRefObject | plugins/EventLocatorPlugin/src/base/locator/IntrusionLocator.cpp:1138-1209 | the rename changes the fields and answers as the rename rule says |
| IntrusionLocatorModel.IntrusionLocator.RenameSensor | plugins/EventLocatorPlugin/src/base/locator/IntrusionLocator.cpp:1145-1155 | the sensor loop renames the first sensor of the old name and says whether there was one |
| IntrusionLocatorModel.IntrusionLocator.RenameBody | plugins/EventLocatorPlugin/src/base/locator/IntrusionLocator.cpp:1164-1172 | the intruding-body loop renames the first body of the old name and says whether there was one |
| IntrusionLocatorModel.IntrusionLocator.TakeAction | plugins/EventLocatorPlugin/src/base/locator/IntrusionLocator.cpp:1224-1258 | "Clear" as corrected; any other action is the base class's and changes nothing |
| IntrusionLocatorModel.IntrusionLocator.Initialize | plugins/EventLocatorPlugin/src/base/locator/IntrusionLocator.cpp:1269-1545 | Initialize answers false when the base class fails, throws the first fault's message, or answers true with the instrument names of the imagers' frames (unchanged when the run is disabled); the locating string is set unless it throws; the settings are unchanged |
| StateConversionsModel.ClampIsNearest | prototype/OptimalControl/PythonPrototypes2019/Tests/StateConversionsTest.py:26-38 | the clamped argument lies in [-1, 1], is the input when that is in range, and no point of [-1, 1] is nearer the input |
| StateConversionsModel.AcosSafeRules | prototype/OptimalControl/PythonPrototypes2019/Tests/StateConversionsTest.py:26-38 | acosSafe equals the arc-cosine of the clamped argument, of -1 below the range and of 1 above it, and lies in [0, pi] when arccos maps [-1, 1] there |
| StateConversionsModel.KepAcceptedInputs | prototype/OptimalControl/PythonPrototypes2019/Tests/StateConversionsTest.py:128-157 | Kep2Cart accepts exactly an ellipse (ECC at least 2 eps below 1) with non-negative SMA, or a hyperbola (ECC at least 2 eps above 1) with non-positive SMA whose TA, when SMA < 0, is within the asymptote angle; -1/ECC needs no clamping |
| StateConversionsModel.NegativeEccentricityFirst | prototype/OptimalControl/PythonPrototypes2019/Tests/StateConversionsTest.py:128-131 | a negative eccentricity is refused with its own message before any other check |
| StateConversionsModel.AcceptedSemiLatus | prototype/OptimalControl/PythonPrototypes2019/Tests/StateConversionsTest.py:173-177 | accepted elements never reach the ECC == 1 branch, and their semi-latus rectum is positive when SMA is not zero |
| StateConversionsModel.FoldKeepsOrbit | prototype/OptimalControl/PythonPrototypes2019/Tests/StateConversionsTest.py:159-171 | the corrected degenerate-orbit rewrite keeps SMA, ECC, INC and the true longitude, zeroes RAAN of an equatorial and AOP of a circular orbit, keeps AOP + TA of a circular inclined one, leaves other orbits alone and is idempotent |
| StateConversionsModel.FoldAsWrittenLosesLongitude | prototype/OptimalControl/PythonPrototypes2019/Tests/StateConversionsTest.py:159-164 | the rewrite as written agrees with the corrected one except for circular equatorial orbits, where AOP = 1 gives true longitude 0 instead of 1 |
| StateConversionsModel.Kep2Cart | prototype/OptimalControl/PythonPrototypes2019/Tests/StateConversionsTest.py:114-200 | fewer than six elements fail on unpacking; refused elements give []; accepted ones are placed after the corrected degenerate-orbit rewrite (Fold), not the rewrite as written at lines 159-164 |
| StateConversionsModel.Kep2CartCorrectsOnlyCircularEquatorial | prototype/OptimalControl/PythonPrototypes2019/Tests/StateConversionsTest.py:159-164 | the corrected Kep2Cart gives what GMAT's Kep2Cart (Kep2CartAsWritten) gives, except for accepted circular equatorial elements, which it places as GMAT would with the true longitude AOP + RAAN + TA as true anomaly |
| StateConversionsModel.StateConvSameType | prototype/OptimalControl/PythonPrototypes2019/Tests/StateConversionsTest.py:40-70 | equal input and output types return the input unchanged, whatever the type |
| StateConversionsModel.StateConvThroughCartesian | prototype/OptimalControl/PythonPrototypes2019/Tests/StateConversionsTest.py:40-112 | a conversion between different types is the conversion to Cartesian followed by the conversion from it, also through the two Cartesian shortcuts; an unknown input type, or an unknown output type after a successful first half, fails with the unassigned-variable error |
| StateConversionsModel.Cart2KepCases | prototype/OptimalControl/PythonPrototypes2019/Tests/StateConversionsTest.py:388-445 | the four special cases of Cart2Kep partition the (INC, ECC) plane as the tests order them, an inclination at the tolerance with circular ECC counting as inclined |
| StateConversionsModel.Cart2KepAngleRules | prototype/OptimalControl/PythonPrototypes2019/Tests/StateConversionsTest.py:391-445 | each special case zeroes the angles it does not define (RAAN for elliptic equatorial, AOP for circular inclined, both for circular equatorial); every angle lies in [0, 2 pi], and TA passes pi only when its sign test was negative |
| StateConversionsModel.SkewIsCrossProduct | prototype/OptimalControl/PythonPrototypes2019/Tests/StateConversionsTest.py:1251-1257 | skew(v) is antisymmetric with a zero diagonal, multiplying by it is the cross product with v, and it sends v to zero |
| StateConversionsModel.WrappedIsModulo | prototype/OptimalControl/PythonPrototypes2019/Tests/StateConversionsTest.py:1235-1249 | adding 2 pi while negative ends with a value in [0, 2 pi), the input itself when it was not negative, equal to the input minus floor(input / 2 pi) turns |
| StateConversionsModel.TA2EA | prototype/OptimalControl/PythonPrototypes2019/Tests/StateConversionsTest.py:1235-1249 | the loop returns the wrapped eccentric anomaly, which is not negative |
| GMATFunctionModel.PlaceRules | prototype/OptimalControl/FunctionInterface/GMATFunction.py:92-113 | "insert" adds exactly one entry, at pointIdx when it lies in [0, len], and removing it gives back the old list; "overwrite" succeeds exactly for the indices Python accepts (negative ones counting from the end) and changes that one entry; any other insertion type changes nothing |
| GMATFunctionModel.CustomSettingRules | prototype/OptimalControl/FunctionInterface/GMATFunction.py:153-169 | a setting reads back as the last value set for its key, setting one key leaves the others alone, and only a key never set raises the KeyError |
| GMATFunctionModel.BoundsSetRules | prototype/OptimalControl/FunctionInterface/GMATFunction.py:129-140 | setting the bounds fails exactly when the function scaler or the function configuration was never set; otherwise only the two scaled bounds change, and equal bounds come back equal |
| GMATFunctionModel.StringToEnumRoundTrip | prototype/OptimalControl/FunctionInterface/GMATFunction.py:599-613 | the three representation names map one to one onto the values 1, 2 and 4, and every other name gives None |
| GMATFunctionModel.SliceContents | prototype/OptimalControl/FunctionInterface/GMATFunction.py:191-227 | the slicing fails only for an empty request; 'All' returns the whole vector and its units; otherwise the result is the sub-states of the requested names and their units, in request order and within a name in DecVecData order |
| GMATFunctionModel.SliceRanges | prototype/OptimalControl/FunctionInterface/GMATFunction.py:195-222 | when the vector is as long as its sub-states, the orbit range and the mass range (counted in the returned state) point at an OrbitState and a TotalMass sub-state of the result, for 'All' and for named requests (with lines 355-390 of the same file) |
| GMATFunctionModel.SliceState | prototype/OptimalControl/FunctionInterface/GMATFunction.py:191-227 | the nested loops over the requested names and DecVecData compute the slicing |
| GMATFunctionModel.ConversionStepsRules | prototype/OptimalControl/FunctionInterface/GMATFunction.py:240-324 | the state is pivoted to Cartesian exactly when the origin or the axes differ and the phase representation does not contain "Cartesian"; it is translated exactly when the origins differ and rotated exactly when the axes differ; the last step converts to the function's representation, from Cartesian whenever the frame moved; with the same frame that conversion is the only step |
| GMATFunctionModel.SameFrameIsIdentity | prototype/OptimalControl/FunctionInterface/GMATFunction.py:240-324 | a phase in the function's frame and representation gets its orbit sub-state back unchanged |
| GMATFunctionModel.UnscaledStateRules | prototype/OptimalControl/FunctionInterface/GMATFunction.py:171-326 | with no orbit sub-state, or one already in the function's frame and representation, the result is the unscaled requested state |
| GMATFunctionModel.PiecesRules | prototype/OptimalControl/FunctionInterface/GMATFunction.py:425-527 | the axes Jacobian is always the identity with a zero time partial, JC is the identity unless the state was pivoted, and JO is the translation's Jacobian when the origins differ |
| GMATFunctionModel.EqualOriginsBlock | prototype/OptimalControl/FunctionInterface/GMATFunction.py:500-505 | with equal origins the origin Jacobian and partial are zero, so the orbit block is JR JC and the time column is the function-side time partial alone (with lines 572-584 of the same file) |
| GMATFunctionModel.JacobianLayoutRules | prototype/OptimalControl/FunctionInterface/GMATFunction.py:403-410 | the Jacobian is n-by-n; outside the orbit block every entry is 0 except a 1 on the mass diagonal, the block holds the orbit Jacobian, and the time column is 0 outside the block; the layout fails exactly when the mass index is outside the state or the orbit slice is not 6 wide (with lines 587-588 of the same file) |
| GMATFunctionModel.LayOutJacobian | prototype/OptimalControl/FunctionInterface/GMATFunction.py:403-410 | the arrays filled entry by entry equal the layout, or the error numpy raises first is returned (with lines 587-588 of the same file) |
| GMATFunctionModel.SelectedMassIndexFinding | prototype/OptimalControl/FunctionInterface/GMATFunction.py:386-410 | with DecVecData [OrbitState 6, TotalMass 1] and only TotalMass requested, the index as written is 6 in a one-entry state and fails; the corrected index gives [[1.0]] |
| GMATFunctionModel.CorrectedMassIndexInRange | prototype/OptimalControl/FunctionInterface/GMATFunction.py:386-410 | the mass index counted in the returned state always lies inside it, so the mass entry never fails |
| GMATFunctionModel.GMATFunction.constructor | prototype/OptimalControl/FunctionInterface/GMATFunction.py:39-73 | empty configuration and scaler lists, no function configuration or scaler, empty bounds and settings, Spice ephemerides |
| GMATFunctionModel.GMATFunction.SetPhaseConfig | prototype/OptimalControl/FunctionInterface/GMATFunction.py:92-101 | the configurations become the placed list, or the IndexError leaves the object unchanged |
| GMATFunctionModel.GMATFunction.SetPhaseScaler | prototype/OptimalControl/FunctionInterface/GMATFunction.py:103-113 | the scalers become the placed list, or the IndexError leaves the object unchanged |
| GMATFunctionModel.GMATFunction.SetFunBounds | prototype/OptimalControl/FunctionInterface/GMATFunction.py:129-140 | the bounds as BoundsSet gives them, or the AttributeError leaves the object unchanged |
| GMATFunctionModel.GMATFunction.SetCustomSetting | prototype/OptimalControl/FunctionInterface/GMATFunction.py:153-161 | the settings gain or replace that key and nothing else changes |
| GMATFunctionModel.GMATFunction.GetUnscaledStateForFun | prototype/OptimalControl/FunctionInterface/GMATFunction.py:171-326 | the unscaled state for the function at the point, as UnscaledStateForFun defines it |
| GMATFunctionModel.GMATFunction.GetUnscaledJacobian | prototype/OptimalControl/FunctionInterface/GMATFunction.py:328-597 | the Jacobians at the point with the corrected mass index, as JacobianFor defines them |

## Left out

- Covariance: an unknown id in the by-id resizing methods, and an unknown id in either SetElementSize form when a size other than -1 is asked for, index a list at -1 in GMAT (undefined behaviour); the model returns an error there. SetElementSize by id also computes the block start and does not use it; the model does not compute it.
- Covariance: owners are compared by name, as GetName() is what GMAT compares; the owner objects themselves are not modelled.
- Covariance: out-of-range Rmatrix access throws in GMAT's matrix class; the model reports it as an error result.
- ErrorModel.GetBiasPassNumber: with no pass start epoch GMAT's loop bound underflows; the model returns an error.
- ErrorModel: the run mode (TESTING or not) is a parameter; GmatBase parameter tables, cloning and assignment are not modelled.
- Oscillator.Initialize: Transmitter::Initialize, the epoch-type check and the epoch conversion are inputs; time systems are modified Julian dates as reals.
- Floating-point rounding is not modelled: reals are exact.
- PropagationStateManagerModel.PropagationStateManager.SortVector: on an error GMAT has already zeroed and partly re-accumulated stateSize; the model leaves the previous layout, size included, in place.
- SortVector's per-item extras are not modelled: hasPostSuperpositionMember, the completion index and size lists, parameterID, parameterType-dependent id offsets, associateName, nonzeroInit and initial values, postDerivativeUpdate, dynamicObjectProperty and the CartesianState id lookup; they are answers of the objects, not computed by the manager.
- GetCount, BuildState, MapObjectsToVector, MapVectorToObjects and the covariance propagation and process-noise routines are not part of this model.
- Objects are values compared by equality, standing for GMAT's pointer comparison; null objects cannot occur.
- The objects' SetPropItem, GetPropItemSize, parameter types and row lengths are inputs (fields of SpaceObject); SetPropItem's side effects on the object are not modelled.
- The orbit STM element id is a parameter of SortVector.
- ObjectEpochsMatch reads the epochs as inputs; with precision time GMAT compares a difference in seconds with the 5e-11 tolerance it otherwise applies to days, and the model keeps that.
- GmatMathUtil's IsEqual and SignOf are not part of this model: IsEqual(a, b, tol) is taken as |a - b| < tol, and SignOf(0) as +1.
- Propagator.Step and Propagator.RawStep: the derived class's integration step is an input (its success flag); its effect on the state and the step size is not modelled.
- Propagator.SetNoiseStep: which object list is scanned (physical model or PropObjects) and each object's ProcessNoiseModel lookup are inputs, given as one optional update step per object.
- The propagator's Initialize, the ODE-model and physical-model plumbing, the buffers of states and the indexed and string parameter accessors are not part of this model.
- SeqEstimatorModel.SeqEstimator.AdvanceState: CompleteInitialization, FindTimeStep, Estimate and RunComplete are not modelled here; the state each leaves behind is an input. The event and .mat answers of the measurement manager are inputs too. The unknown-state message leaves out the instance name GMAT puts in it.
- SeqEstimatorModel.SeqEstimator.StateCleanUp: the report, covariance and conversion-matrix refresh, BeginPredicting and the next-noise-update epoch are not modelled, only the switch to predicting and the next state.
- SeqEstimatorModel.MatchSmoothTimeStep: the back filter's last epoch is an input; an empty list of update statistics (an out-of-range read in GMAT) is not modelled. Epochs are reals in days, and ESTTIME_ROUNDOFF is the tolerance parameter.
- SeqEstimatorModel.CovarianceConversionMatrix: the 6x6 Cartesian-to-Keplerian blocks are inputs, one per state-map position; their computation is floating-point geometry.
- SeqEstimatorModel.DataFilter: the square roots of the diagonal of H P H' + R and the offset term H x are inputs; forming them needs matrix products and a square root.
- The string parameters, warm-start files, report writing and the .mat output of the estimator are not part of this model.
- ExtendedKalmanFilterModel.ExtendedKalmanFilter: the Cholesky factorisation, the matrix inverse and the conversion derivative dX/dS are inputs (the factor of the covariance, dS/dX, the Cartesian and solve-for factors, the full factor), since they are numerical routines outside this file.
- ExtendedKalmanFilterModel.ExtendedKalmanFilter.UpdateElements: Estimator::Symmetrize is not part of this model; the covariance S times its transpose is already symmetric, which is proved instead. The warning for a small diagonal entry is output only.
- ExtendedKalmanFilterModel.ExtendedKalmanFilter: every epsilon conversion is assumed non-zero, because GMAT divides by it.
- ExtendedKalmanFilterModel.ExtendedKalmanFilter.WriteCovarianceToDataFile: the values are returned as reals; their text form (RealToString) and the stream they go to are not modelled.
- ExtendedKalmanFilterModel.ExtendedKalmanFilter.ReadCovarianceFromDataFile: the restart row is taken as reals already parsed (ToReal is not modelled); checks are made before anything is written, where GMAT would index past the row or the file's factor (undefined behaviour or an Rmatrix exception) part-way through.
- ExtendedKalmanFilterModel.ExtendedKalmanFilter.ReadCovarianceFromDataFile: the unsigned column arithmetic stateColumnNum[i] - firstStateIndex is modelled as a signed difference checked to lie inside the file's factor.
- ExtendedKalmanFilterModel.ExtendedKalmanFilter.ReadCovarianceFromDataFile: the covariance covInAll assembled from the file before factorisation is not modelled; its factor is the input full factor.
- ExtendedKalmanFilterModel.ExtendedKalmanFilter.AdvanceEpoch: PrepareForStep, the mapping of states to objects, WriteDataFile, FindTimeStep and the measurement manager are left out (the end-of-table flag, the next epoch and the run direction are inputs); epochs are reals in days rather than GmatTime.
- ExtendedKalmanFilterModel.ExtendedKalmanFilter.CompleteInitialization: SeqEstimator::CompleteInitialization, the identity matrix I and sizing sqrtPupdate are not modelled; whether an observation exists is an input.
- ExtendedKalmanFilterModel.ExtendedKalmanFilter: Estimate, FilterUpdate, TimeUpdate, SetupMeas, ComputeObs, ComputeGain apart from its deweighting scale, UpdateCovarianceSimple, UpdateCovarianceJoseph, SetCovariance and UpdateCov are not modelled; they are matrix algebra over measurement models outside this model.
- PlanetographicRegionModel: the ellipsoid-to-Cartesian conversions, the rotations to the point's meridian, the interpolation of pole-to-pole edges and the removal of hidden corners are floating-point geometry; WithinFromCrossings takes the rotated corners' x coordinates and the visible boundary as inputs.
- PlanetographicRegionModel: reading the latitude and longitude file (ReadLatitudeLongitudeFile) and the parameter tables, clones and renaming are bookkeeping and I/O, not part of this model.
- PlanetographicRegionModel.PlanetographicRegion.SetLatitude: the error messages leave out the instance name and the printed value, which need number formatting.
- PlanetographicRegionModel.PlanetographicRegion.SetLongitude: the error messages leave out the instance name and the printed value; the unused "compare" value is not modelled.
- PlanetographicRegionModel.PlanetographicRegion.SetFilename: the conversion to the system's file-name form and the test that the file exists are inputs.
- PlanetographicRegionModel.DoLinesIntersect: the square root is a parameter, and the distance for coinciding endpoints a and b, a zero-by-zero division in GMAT that never wins the minimum, is absent.
- CCSDSOEMReaderModel: lines are given already split into words; the rest of a line after its keyword is the remaining words joined by single spaces, so runs of spaces and tabs inside values are not kept.
- CCSDSOEMReaderModel: opening and reading the file is an input (the lines and whether the file opened); the check for an empty file before the first read is not modelled because it cannot fire; closing the file is not modelled.
- CCSDSOEMReaderModel: CCSDSEMSegment::ParseEpoch, GmatStringUtil::IsValidReal, reading a number from the line stream, the segment's SetMetaData and GetDataSize are parameters (Env); the message ParseEpoch throws is replaced by EpochFailure, and a number that reads from the front of a longer word is not distinguished from a word that is a number.
- CCSDSOEMReaderModel.OEMReader.CloseMetaBlock: the segment's Validate and its reading of the data type are not modelled; the segment is the data the reader puts into it.
- CCSDSOEMReaderModel.OEMReader.ReadMetaEntry: the meta-data comment is added to the last segment created, or dropped when there is none yet; the value entered under COMMENT is the empty string, because GMAT enters a value left from earlier reading.
- CCSDSOEMReaderModel: the lastRead bookkeeping is written but never read in GMAT, and the debug output is left out.
- CCSDSOEMReaderModel.OEMReader.ReadBlockLine: the branch for a line after COVARIANCE_STOP (META_START opens a meta-data block, any other line ends the loop, CCSDSOEMReader.cpp:835-851) cannot be reached, because COVARIANCE_STOP clears readingCovariance at line 766; the model skips every later line, as the program does, and the trailing check at 857-873 never finds a line.
- SPICEPropagatorModel: SPICE's spke10, the TLE file reader (including ParseForSpice), the file-existence test, the string-to-real conversion and the A.1, TT and UTC time conversions are inputs; loading the leap-second kernel is not modelled.
- SPICEPropagatorModel: the value an unconverted inclination field is checked with (an uninitialized variable in GMAT) is the input garbage.
- SPICEPropagatorModel.TleFieldCheck: the range messages name the field but do not carry the offending value, whose formatting is not modelled.
- SPICEPropagatorModel.StatedChecksum: a one-character conversion is taken to succeed exactly on a digit.
- SPICEPropagatorModel.SetUpSpacecraft: on success it states each record and epoch, but not again that each TLE was accepted; SetUpOne states that for each spacecraft.
- SPICEPropagatorModel.SPICEPropagator: writing the state back to the spacecraft (UpdateSpaceObject, UpdateFromSpaceObject, RevertSpaceObject, HasEphemPropagated), the coordinate converters, the reference-object plumbing, cloning, copying and assignment are not modelled.
- SPICEPropagatorModel.SPICEPropagator.GetParameterID: the messages it prints are not modelled.
- Troposphere physics: the Hopfield-Saastamoinen correction (`CalculateHS`), Marini's closed form and its bending integral, the fractional expander of the mapping functions, 1 / sin of the elevation angle, Lanyi's elevation correction and the Niell seasonal phase from the day of year are inputs (`Environment`), because they are floating-point formulas over trigonometric and exponential functions.
- Troposphere conversions: string-to-integer and string-to-real conversion, the coefficient-list parser, the modified Julian date of a calendar time, the Gregorian text of an epoch, cosine and sine, and the calendar month of an epoch are inputs (`Conversions`, the argument of `SetTime`); a conversion that fails keeps the preset value, as `ToInteger` and `ToReal` leave their output unchanged.
- Troposphere files: reading the Marini data file and the DSN media files, and the search through the DSN media directories, are inputs; the Marini file arrives as its rows or the error opening it.
- TroposphereModel.Troposphere.constructor: takes the model name, the ground station id and the DSN database that the media-correction base class's setters supply.
- Troposphere units: the station's latitude and longitude arrive in degrees; the radian-to-degree conversion is not modelled.
- TROGET calls `abs` on a real argument; the model takes the real absolute value, which a C `abs` on integers would truncate.
- TROGET's `GmatMathUtil::Mod` on the refractivity code is modelled as the C remainder (truncating toward zero), which agrees with it for the non-negative codes of the file.
- Undefined behaviour in the TRK-2-23 path is an error in the model: reading a database row with fewer than 8 fields, a solver line at index -1 or a coefficient the row does not hold is `IndexError`, a Marini month the site does not hold is `IndexError`, and a TRIG period of 0 or an NRMPOW span of zero length (floating-point division by zero, giving an infinity or NaN in GMAT) is `DivisionByZero`.
- TroposphereModel.Trk223Result: uses the corrected Niell coefficients and station mapping (see Findings), not the ones as written.
- BRTSRangeAdapterModel: the signal data of the legs, the two epoch-validity checks, the time-tag flag, the error model's biases and sigmas, the Gaussian noise draws and the pass bias at the epoch are inputs; range-rate vectors, participant bodies, media-correction warnings and uplink frequencies are not modelled.
- BRTSRangeAdapterModel: the rewritten reasons are not written back into the legs' signal data.
- BRTSRangeAdapterModel.BRTSRangeAdapter.CalculateMeasurementDerivatives: the count of participants whose names the bias object's name contains is an input; the name-erasing loop that counts them is not modelled.
- BRTSRangeAdapterModel.BRTSRangeAdapter.CalculateMeasurement: the multiplier is a field set elsewhere; a table of measurement biases shorter than the paths (undefined behaviour in GMAT) is excluded by the precondition.
- TdrsServiceAccess: the frequency band and the turn-around ratio arrive as plain values; reading them from the signal data is not modelled.
- TdrsServiceAccess.DivisionByZero: the message the Doppler adapters report where GMAT divides by a zero count interval or multiplier factor without a check (BRTSDopplerAdapter.cpp:1297-1300 and 1325-1333, the same divisions in TDRS3LReturnDopplerAdapter.cpp); in GMAT the division yields an infinity or NaN and the computation goes on, while the model stops with this error.
- BRTSDopplerAdapterModel: the four path records, the multiplier factors of the path adapters, each path's TDRS node id, the noise draws, the pass bias, the error model's biases and sigmas, the two epoch-validity checks and the random draw that picks a simulation's service index are inputs; the uplink frequency, the turn-around ratios read from the signal data, the ionosphere and troposphere correction values, the ideal C-value and the error covariance are not modelled.
- BRTSDopplerAdapterModel: a zero count interval or a zero multiplier factor, which GMAT divides by, is modelled as a failure with a division-by-zero message.
- BRTSDopplerAdapterModel.BRTSDopplerAdapter: forwarding the other parameter ids and the string parameters to the path adapters and the range adapter, the reference objects, the propagators, cloning and assignment are not modelled; the service index the constructor leaves uninitialized starts at 0.
- BRTSDopplerAdapterModel.BRTSDopplerAdapter.SetBooleanParameter: the value it returns (the conjunction of the adapters' answers) is not modelled.
- BRTSDopplerAdapterModel.BRTSDopplerAdapter.CalculateMeasurement: the "no service access" error cannot be reached once the index is inside the list, and is not modelled.
- BRTSDopplerAdapterModel.CombineDerivatives: reading past the end of a path table with fewer rows than End-Long (undefined behaviour in GMAT) is modelled as the range-check failure.
- BRTSDopplerAdapterModel.WalkPaths: the loop covers the signal paths of the calculation data, which GMAT notes is one path in practice; the walk is stated for any number.
- TDRS3LReturnDopplerModel: the pilot frequency and its derivative with respect to the node-4 frequency are per-path inputs, because the functions that compute them are not part of this model; the TDRS id the loop extracts feeds only those functions and is not modelled.
- TDRS3LReturnDopplerModel: uplink frequencies, ionosphere and troposphere correction values, the covariance pointer and the epoch's GmatTime form are not modelled; the four path adapters' own failures except the End-Spacecraft one are not modelled.
- TDRS3LReturnDopplerModel.Calculate: a zero count interval or multiplier factor, which GMAT divides by, is a failure before the first path.
- TDRSDOWDModel: the ionosphere and troposphere corrections (TDRSDOWDAdapter.cpp:1289-1290) and the uplink fields read back from the sub-records (1238-1240, 1248-1250) are not modelled.
- TDRSDOWDModel: the epoch lookup and the two epoch-validity checks, the rand() draws that pick a simulation's service indices, the error model's biases and sigmas, the noise covariance and the Gaussian draw are inputs.
- TDRSDOWDModel: the "No TDRS service access" checks at TDRSDOWDAdapter.cpp:1147-1150 cannot fire once the indices are drawn inside non-empty lists, and are not modelled.
- TDRSDOWDModel: the number of signal paths is the number of noise entries the measurement model supplies; participant ids are not modelled, neither in Initialize nor in the derivatives.
- TDRSDOWDModel.TDRSDOWDAdapter.CalculateMeasurementDerivatives: the participant matching of a bias's name, the parameter's size and the sub-adapters' derivative tables are inputs (DowdDerivativeRequest).
- TDRSDOWDModel.TDRSDOWDAdapter: the string and label parameter accessors other than the service-access lists, the parameter tables, the reference objects, cloning and assignment are not modelled.
- TDRSDOWDModel.PathIndexError: a sub-record with fewer entries or rows than the paths (undefined behaviour in GMAT) is an error in the model.
- SpiceOrbitKernelReaderModel: CSPICE is a parameter (kernel type, bodies and coverage windows per kernel, the state answer and the time conversions); loading and unloading kernels is the set of loaded names, and CSPICE's error state is the answer it gives.
- SpiceOrbitKernelReaderModel: the failure of wnfetd_c when reading the first window ("Error getting interval times") is not modelled, because the windows are given as values.
- SpiceOrbitKernelReaderModel: std::map iteration over loaded kernels and stored buckets is an input list in key order (InKeyOrder); the GmatTime overload of GetTargetState does the same as the A1Mjd one and is not modelled separately.
- SpiceOrbitKernelReaderModel.SpiceOrbitKernelReader.GetTargetState: PrintWarningMessage's lines are kinds (Shown), with ShownText giving their text, and printing them is left out; the lines GetTargetState shows are not part of its contract.
- CcsdsEphPropagatorModel: the OEM file's records and their interpolation are a parameter (EphemFile.interp), and so are the file manager's path lookup, opening the file and the coordinate conversion (InitEnv); reading the records is CCSDSOEMReaderModel's.
- CcsdsEphPropagatorModel: the GmatTime (hasPrecisionTime) path of Initialize, Step and UpdateState, the copy constructor, operator= and Clone, and the debug output are not modelled; SetEphemSpan's call into the base class when no initial epoch was set is not modelled.
- CcsdsEphPropagatorModel.CcsdsEphPropagator.BuildCoordinates: on an unsupported frame GMAT has already deleted the old coordinate systems without clearing the pointers; the model treats that as having none.
- CcsdsEphPropagatorModel.CcsdsEphPropagator.Step: kept as written, a step does not convert the state to the propagator's frame (Initialize does, through UpdateState), and a step stopped at a bound keeps the overshot time from the ephemeris start; because the step sets the last epoch to the epoch, later steps continue from that overshot time, and only an epoch moved from outside makes a step recompute it (OvershotCarriesOver).
- StkEPropagatorModel: the file's records and their interpolation, the file manager, opening the file and the coordinate conversion are parameters, as for the CCSDS-OEM propagator; StepGT, the GmatTime path of Initialize, operator='s GmatTime branch, the copy constructor and Clone are not modelled, and neither is the base class's assignment or SetEphemSpan, which are not part of this model.
- StkEPropagatorModel.StkEPropagator.BuildCoordinates: on an unsupported frame GMAT has already deleted the old coordinate systems without clearing the pointers; the model treats that as having none. The fixed-rotation conversion it runs at the end only primes the converter and is left out.
- SPKPropagatorModel: the precision-time (GmatTime) paths of Initialize, Step and UpdateState, StepGT, RawStep, the copy constructor, Clone, the destructor's unloading of kernels, the NAIF id of the SPICE body and the J2000 epoch are not modelled; the base class's Initialize, its SetEphemSpan and the file manager are parameters; ReturnFromOrigin is not part of this model.
- SPKPropagatorModel: Initialize and Step handle one propagated object, since Initialize throws for any other count; the loops over the objects are modelled for that one object.
- SPKPropagatorModel: the off-ephemeris warning and the debug messages are output and are not modelled beyond the flag that suppresses repeats; the numbers in the exception texts are formatted by a parameter.
- ContactLocatorModel: the SPICE geometry searches (FindEvents), report writing and formatting, and the kernel files written for ground stations and imagers are outside the model; whether the kernels were written is a parameter of Initialize, and so are the base class's Initialize, the testing run mode and whether the target is a region.
- ContactLocatorModel: SetRefObject's pairing of observer objects with names, the directObservers and observedRegions lists Initialize builds, and the renumbering of the PassNumber cell are not modelled; observers are given as resolved objects with their kind, field of view and central body.
- ContactLocatorModel: the header's default report settings are not part of this model; the constructor takes them as a parameter.
- ContactLocatorModel.ImagerFrameId: the 32-bit overflow of the host's NAIF id times ten is not modelled; NAIF ids in use are far below the limit.
- ContactLocatorModel.Upper: the upper-casing covers ASCII letters only.
- IntrusionLocatorModel: the SPICE searches for intrusion intervals, target positions and phase angles, the angular diameter and second report angle (arc sines and tangents), the kernel files Initialize and WriteFixedGridSPK write, the grid frame file's other lines, and report writing (ReportEventData) are outside the model; the resolved imagers, the spacecraft's NAIF id and hardware, the run mode, whether the base class initialised and whether the grid frame file holds a class id are parameters of Initialize.
- IntrusionLocatorModel: FindEvents' loops over sensors, intruding bodies and intervals and the results they build are not modelled; the samples of one interval and the values computed at each sample are.
- IntrusionLocatorModel: SetRefObject, GetRefObject, GetRefObjectNameArray, GetTypesForList and GetPropertyObjectType, which pair objects with the names, are not modelled.
- IntrusionLocatorModel.SampleEpochs: the epochs are exact reals, so the rounding of repeated floating-point steps is not modelled; a step that is not positive, which never ends the loop in GMAT, is excluded by its precondition.
- IntrusionLocatorModel.IntrusionLocator.Initialize: a fault thrown part way leaves the instrument names as they were, where GMAT has already cleared them and added those of the imagers before the fault; the 32-bit overflow of the NAIF id times 1000 is not modelled.
- StateConversionsModel: the trigonometry and square roots, the rotations R1-R3, the perifocal-to-inertial placement, the SphericalAzFPA conversions and the vector part of Cart2Kep (momentum, node and eccentricity vectors, SMA with its np.inf case) are the functions of a Trig value; floating-point division is `t.div`, so its inf and nan results are not modelled.
- StateConversionsModel: the partial-derivative functions (dCartdOE, dOEdCart, dCartdSphAzFPA, dSphAzFPAdCart, dR1-dR3), the scalar variants (Kep2CartScalars, SphAzFPA2CartScalars, Cart2KepScalars, Cart2SphAzFPAScalars) and the test harness under `__main__` are not modelled.
- StateConversionsModel.Kep2Cart: the warnings printed for refused elements and near the hyperbolic singularity are not modelled; the refusal is named by `KepCheck`, whose messages are `KepFaultMessage`.
- StateConversionsModel.Kep2Cart: places accepted elements with the corrected rewrite Fold rather than the rewrite as written at StateConversionsTest.py:159-164 (Kep2CartAsWritten), so a circular equatorial orbit keeps its true longitude; ToCartesian, StateConv and GMATFunctionModel's conversions inherit the corrected behaviour.
- GMATFunctionModel: StateConversions.py, from which GMATFunction.py imports StateConv, is not part of this model; the conversions use StateConversionsTest.py's StateConv, which takes the same arguments.
- GMATFunctionModel: GetState and GetTime (provided by subclasses), the unscaling, the origin translation (plain or smoothed), the axes rotation, getMu, StateConvJacobian and DecVecTimeDerivatives are outside the model; they enter as the functions of a StateEnv and the values of a JacobianEnv. SetEphemSmoother only stores the smoother object and is not modelled.
- GMATFunctionModel.JacobianFor: the state conversions the Jacobian method performs only to evaluate StateConvJacobian and DecVecTimeDerivatives are not repeated, so the exceptions they could raise are not modelled.
- GMATFunctionModel: the message printed for a request that matches no sub-state is not modelled; the computation goes on with the empty state, as in GMAT.
- GMATFunctionModel: the commented-out deprecated methods are not modelled.

## Findings

| source | as written | input that shows it | evidently intended | confidence | as-written member | corrected member |
|---|---|---|---|---|---|---|
| src/gmatutil/util/CCSDSOEMReader.cpp:356-364 | the equal sign of a header or meta-data line is extracted into a string kept from the version line, so a line with no second word keeps "=" and passes | header line "ORIGINATOR" after "CCSDS_OEM_VERS = 1.0" | a keyword line without "=" is rejected | high, not executed | CCSDSOEMReaderModel.EqualSignAsWritten, CCSDSOEMReaderModel.MissingEqualSignAccepted | CCSDSOEMReaderModel.OEMReader.ReadHeaderLine, CCSDSOEMReaderModel.OEMReader.ReadMetaEntry |
| src/gmatutil/util/CCSDSOEMReader.cpp:776-825 | the vector of covariance values is declared inside the row branch, so each row starts from a fresh vector and the record holds only the sixth row's values | six rows 1; 2 3; 4 5 6; ...; 16 17 18 19 20 21 give a record whose first entry is not 1 | the record holds all 21 values of the lower triangle | high, not executed | CCSDSOEMReaderModel.RecordAsWritten, CCSDSOEMReaderModel.RecordAsWrittenLosesRows | CCSDSOEMReaderModel.SixRowsMakeRecord, CCSDSOEMReaderModel.OEMReader.ReadCovarianceDataLine |
| plugins/EstimationPlugin/src/base/measurement/Troposphere/Troposphere.cpp:817-840 | below 15 and above 75 degrees all six coefficient assignments write the dry a coefficient, so it ends as the wet c entry and the other five stay 1 | a station at 10 degrees latitude | each coefficient takes its table entry of the 15 or 75 degree row | high, not executed | TroposphereModel.EndCoefficientsAsWritten | TroposphereModel.NiellCoefficients, TroposphereModel.TableCoefficients |
| plugins/EstimationPlugin/src/base/measurement/Troposphere/Troposphere.cpp:843-850 | the latitude loop keeps overwriting the interval while the latitude is below a table entry, so every latitude below 60 degrees uses the 45-60 degree rows (extrapolating below 45) and 60-75 degrees use the 15-30 degree rows at scale 0; the scale is also measured backwards, (lat - 60) / (45 - 60), so even inside 45-60 degrees, the one interval it finds correctly, the scale is one minus the intended one: 45 degrees gives (2, 1.0), the 60-degree row, instead of (2, 0.0), and 50 degrees a scale of 2/3 instead of 1/3 | a station at the table latitude 30 degrees, or at 45 degrees | the interval holding the latitude, with the scale measured from its lower end, in [0, 1] | high, not executed | TroposphereModel.BracketAsWritten, TroposphereModel.NiellBracketAsWritten, TroposphereModel.NiellAsWrittenMissesTableRow, TroposphereModel.ScaleReversedFrom45To60 | TroposphereModel.Bracket, TroposphereModel.NiellBracket, TroposphereModel.NiellMeetsTable |
| plugins/EstimationPlugin/src/base/measurement/Troposphere/Troposphere.cpp:615-660 | an abbreviation is replaced by its complex name and then wrapped and converted again, so the station becomes "DSN(DSN(C40))" and the complex follows an unconverted station number | ground station id "CAN" | the abbreviation names its complex as station and complex | medium, not executed | TroposphereModel.StationMappingAsWritten, TroposphereModel.AbbreviationAsWrittenLosesComplex | TroposphereModel.StationMapping |
| plugins/EphemPropagatorPlugin/src/base/propagator/SPKPropagator.cpp:347 | the test of the base class's answer assigns true instead of comparing, so the setter reports true for a refused value and runs the central-body branch regardless | setting a parameter the base class refuses, or the central body "Moon" refused by the base class | the base class's answer is returned and only an accepted central body is checked and passed to SPICE | high, not executed | SPKPropagatorModel.SetStringAsWritten, SPKPropagatorModel.RefusedValueReportedAsSet | SPKPropagatorModel.SetString, SPKPropagatorModel.SetStringPromises |
| plugins/EventLocatorPlugin/src/base/locator/ContactLocator.cpp:727, plugins/EventLocatorPlugin/src/base/locator/ContactLocator.cpp:762 | the index tests compare only against the list's size, so a negative index reads or writes before the start of the observer list | index -1 with one observer | an index outside [0, size) is refused by the getter and appended by the setter | high, not executed | ContactLocatorModel.GetObserverAsWritten, ContactLocatorModel.SetObserverAsWritten, ContactLocatorModel.NegativeObserverIndexPasses | ContactLocatorModel.GetObserver, ContactLocatorModel.SetObserver, ContactLocatorModel.ObserverIndexRules |
| plugins/EventLocatorPlugin/src/base/locator/ContactLocator.cpp:1368-1377 | the test for empty data in the events branch sits behind an else that empty data never reaches, so "Clear" with no data keeps the contact results | TakeAction("Clear", "") with results held | empty data clears both lists | high, not executed | ContactLocatorModel.ClearAsWritten, ContactLocatorModel.ClearAllKeepsEvents | ContactLocatorModel.Clear, ContactLocatorModel.ClearEmptiesWhatItNames |
| plugins/EventLocatorPlugin/src/base/locator/ContactLocator.cpp:2231-2248 | the running earliest start uses -1 as its "none yet" sentinel, so an event starting at epoch -1 is overtaken by the next unnumbered event | events starting at -1 and 5 | the earliest unnumbered event is numbered next | low, not executed | ContactLocatorModel.PickAsWritten, ContactLocatorModel.SentinelStartReorders | ContactLocatorModel.FirstEarliest, ContactLocatorModel.NumberEvents |
| plugins/EventLocatorPlugin/src/base/locator/IntrusionLocator.cpp:497, plugins/EventLocatorPlugin/src/base/locator/IntrusionLocator.cpp:506, plugins/EventLocatorPlugin/src/base/locator/IntrusionLocator.cpp:543, plugins/EventLocatorPlugin/src/base/locator/IntrusionLocator.cpp:569 | the index tests of the indexed getter and setter compare only against the list's size, so a negative index reads or writes before the start of the sensor or intruding-body list | index -1 with one sensor | an index outside [0, size) is refused by the getter and appended by the setter | high, not executed | IntrusionLocatorModel.GetAtAsWritten, ContactLocatorModel.SetObserverAsWritten, IntrusionLocatorModel.NegativeListIndexPasses | IntrusionLocatorModel.GetAt, ContactLocatorModel.SetObserver, IntrusionLocatorModel.GetAtRules |
| plugins/EventLocatorPlugin/src/base/locator/IntrusionLocator.cpp:1232-1251 | the test for empty data in the events branch sits behind an else that empty data never reaches, so "Clear" with no data keeps the intrusion results | TakeAction("Clear", "") with results held | empty data clears the sensors and the results | high, not executed | IntrusionLocatorModel.ClearAsWritten, IntrusionLocatorModel.ClearAllKeepsResults | IntrusionLocatorModel.Clear, IntrusionLocatorModel.ClearEmptiesWhatItNames |
| plugins/EventLocatorPlugin/src/base/locator/IntrusionLocator.cpp:1396, plugins/EventLocatorPlugin/src/base/locator/IntrusionLocator.cpp:1438 | `bool classIDFound, centerIDFound, centerPosFound = false;` initialises only the last flag, so the class-id check reads an uninitialised flag when the grid frame file has no CLASS_ID line | a grid frame file with no CLASS_ID line and a flag that happens to hold true | every flag starts false, and a file without a class id is refused | medium, not executed | IntrusionLocatorModel.ClassIdFlagAsWritten, IntrusionLocatorModel.UninitialisedClassIdFlag | IntrusionLocatorModel.ClassIdFlag, IntrusionLocatorModel.InitializeRules |
| prototype/OptimalControl/PythonPrototypes2019/Tests/StateConversionsTest.py:159-164 | a circular equatorial orbit has AOP and RAAN set to zero after the true longitude AOP + RAAN + TA is computed into a variable that is never used, so the position is placed at longitude TA alone | Elements(7000, 0, 0, 1, 0, 0): AOP 1 rad, true longitude 1, placed at longitude 0 | the true longitude becomes the true anomaly, so the position is unchanged | medium, not executed | StateConversionsModel.FoldAsWritten, StateConversionsModel.Kep2CartAsWritten, StateConversionsModel.FoldAsWrittenLosesLongitude | StateConversionsModel.Fold, StateConversionsModel.FoldKeepsOrbit, StateConversionsModel.Kep2Cart, StateConversionsModel.Kep2CartCorrectsOnlyCircularEquatorial |
| prototype/OptimalControl/FunctionInterface/GMATFunction.py:386-390, prototype/OptimalControl/FunctionInterface/GMATFunction.py:410 | the mass index of a named request is the offset of TotalMass in the full decision vector, not in the returned state, so the 1 is written at the wrong place or outside the array | DecVecData [OrbitState (6), TotalMass (1)] with returnElements ['TotalMass']: index 6 in a one-entry state raises IndexError | the offset of TotalMass in the returned state, as the orbit range uses | high, not executed | GMATFunctionModel.JacobianFor, GMATFunctionModel.SelectedMassIndexFinding | GMATFunctionModel.GMATFunction.GetUnscaledJacobian, GMATFunctionModel.CorrectedMassIndexInRange |
