# Verified models of the OpenPilot ground software

This project models the parts of the OpenPilot repository that compute, order or transform, and proves what
they promise. Every file is Dafny 4.11; `dafny verify dfyconfig.toml` checks all of it. Code that works on
arrays, buffers and objects is modelled by methods on arrays and classes that are proved against a
specification; the specifications are functions on values, and the lemmas are about these.

## What is modelled

**The INS/GPS Kalman filter** (`matlab/ins/insgps.c`), over real numbers.
`Linear`, `Forms` and `Congruence` are a small library of sums, matrices and quadratic forms. `KalmanUpdate`
and `BatchGain` are the theory of the measurement-at-a-time update, `SerialUpdate` the loops that compute it in
place. `CovariancePrediction` says what a prediction is; `PredictInPlace` proves both versions in the source
against it, and `ExpandedEntries` and `SparsePrediction` deal with the 91 expanded assignments of the second.
`StateModel`, `Quaternions` and `AttitudeStep` are the state equations and the integration step;
`Linearization` proves the Jacobians exact. `FilterRuns` is about runs of the covariance, and `InsGps` is the
filter as an object with its arrays. `PredictionForms`, `FilterFacts` and `AttitudeLoss` say exactly when the two
predictions agree, when two altitude sensors miss the batch estimate, and when a correction can lose the attitude;
`LostAttitude` is a run that loses it. `FilterLaws` says what known readings and inputs do, with the constants of the
source written out.

**Coordinate conversions**: `CoordinateConversions`, quaternion to matrix and back.

**The Mustache renderer**: `Tags` and `TagOrder` describe tags, `Templates` is the meaning of a template by
parsing it into a tree and evaluating the tree, `Renderer` is the program, which scans text again and again
and builds no tree. `TemplateScan` relates the two, for templates that are malformed too. `TemplateText` writes trees
down and reads them back; `TemplateLaws`, `SingleTags` and `TemplateErrors` say in terms of the text of a template what
is output for it. `HtmlEscape` is escaping and unescaping.

**The plugin loader**: `PluginSpecs` (versions, dependency resolution), `PluginReading` (resolution of the whole
list, and the sort by name that follows it), `DependencyGraph` (what can be loaded
at all), `LoadQueue` (the depth-first queue), `LoadPhases` and `RunOrder` (what the passes over the queue call,
and in which order), `PluginManager` (the life cycle on specification objects), `OptionsParser` (the command
line), `OptionLines` (what whole command lines of options do).

**Checksums**: `Checksums` is the theory for any width and polynomial, `Crc32` and `Crc8` the two programs.

**Others**: `LogFile` (telemetry log, timed replay), `LogLayout` (its bytes and limits), `FileSearch` (chunked
search), `UavObjects` (field order, layout, object IDs, collision check), `UavHashes` (which changes of a definition
the ID shows), `WordBits` (arithmetic on 32-bit words).

## Where the code is not what its documentation says

Each of these is stated exactly, as an equivalence or with the input that shows it.

- The comment above `SerialUpdate` promises X + K (Z - Y) with K = P H' inv(H P H' + R). The covariance is
  always the batch one. The state is the batch one for all innovations if and only if no two used measurements
  are correlated under P (`BatchGain.SerialStateIsBatchState`), because the innovations use the Y computed
  before the loop. GPS altitude with barometer is such a pair (`FilterFacts.BothAltitudesMissBatchState`).
- The two versions of `CovariancePrediction` agree if and only if F has the zeros and ones that the expanded one
  has built in, and G lets in the same noise (`PredictionForms.FormsAgreeIff`). That is so once `LinearizeFG` has
  run (`PredictionForms.LinearizedIsNormal`), and not before, when F and G are zero
  (`PredictionForms.FirstPredictionDiffers`).
- `INSCorrection` divides by the norm of the corrected quaternion, which can be zero: for a given magnetometer
  reading exactly when the attitude is a combination of the attitude gains of the other sensors in use
  (`InsGps.Filter.CanLoseAttitudeIff`), and on a run of three calls (`LostAttitude.RunToZero`).
- `unescapeHtml` undoes `escapeHtml` if and only if the text holds no literal `&quot;`
  (`HtmlEscape.RoundTripIff`).
- `R2Quaternion` recovers a half turn, up to sign, if and only if the entries of its axis do not differ in
  sign (`CoordinateConversions.RoundTripIff`).
- The CRC-32 of an image does not see bytes in an incomplete last word (`Crc32.ChangedByteDetected`), and
  cannot tell trailing bytes from padding if and only if those in complete words are 0xFF
  (`Crc32.PaddingInvisible`).
- Log records come back from a replay if and only if they satisfy the checks that the replay makes
  (`LogFile.RoundTripIff`); the writer makes none.
- The comment above `calculateID` promises that the ID changes with the definition. A changed type of the last field
  is missed if and only if the two type codes are neighbours and the lower one and the mixed hash before it add up to
  an even number (`UavHashes.LastKindIff`); `UavHashes.TypeUnseen` and `UavHashes.CountUnseen` are definitions that
  differ in a type, or in a count, and have the same ID.
- A search term that starts with a line break is never found (`FileSearch.MatchesAre`), and the column is
  counted from the start of the chunk when the line began before it (`FileSearch.ColumnIff`).
- A resumed replay has lost the running time between its last delivery and the pause
  (`LogFile.LogFile.ResumeReplay`).
- After reading the plugins each dependency is the first provider in the list if and only if no provider comes by
  name before the one chosen (`PluginReading.SortKeepsFirstProviders`), because the sort by name follows the
  resolution; `PluginReading.SortMovesProvider` is a list for which it is not so. After reading the options it is so
  if and only if a plugin was removed or it was so before (`OptionsParser.Parser.Parse`): without a removal nothing
  is resolved again.

## Model

| member | source | states |
|---|---|---|
| `KalmanUpdate.Serial` | matlab/ins/insgps.c:1328-1348 | whatever sensors are used, the covariance after the measurement-at-a-time loop is symmetric and positive semidefinite |
| `KalmanUpdate.UpdateCovariance` | matlab/ins/insgps.c:1332-1348 | one measurement keeps the covariance symmetric and positive semidefinite (through the Cauchy-Schwarz inequality), and the number divided by is at least the noise variance |
| `Forms.CauchySchwarz` | matlab/ins/insgps.c:1332-1348 | B(x, y)^2 <= B(x, x) B(y, y) for every semidefinite symmetric form |
| `KalmanUpdate.BatchCovariance` | matlab/ins/insgps.c:1306-1348 | Pnew (y + sum over the used sensors of h (h' P y) / R) == P y for every y: the batch covariance equation, although nothing is inverted |
| `BatchGain.FinalGainIsBatchGain` | matlab/ins/insgps.c:1306-1314 | the gain of the header comment exists: column m is Pnew h / R, a solution of K (H P H' + R) == P H' |
| `BatchGain.BatchGainUnique` | matlab/ins/insgps.c:1306-1314 | on the used sensors that equation has only one solution |
| `BatchGain.SerialStateIsBatchState` | matlab/ins/insgps.c:1306-1354 | the state after the serial loop is X + K (Z - Y) with the batch gain, for every Z - Y, if and only if no two used measurements are correlated under P |
| `FilterFacts.BothAltitudesMissBatchState` | matlab/ins/insgps.c:1349-1352 | with GPS altitude and barometer both in use, and an uncertain vertical position, the state is not the batch estimate for some innovation |
| `FilterFacts.OneSensorGivesBatchState` | matlab/ins/insgps.c:1349-1352 | with one sensor it always is |
| `SerialUpdate.RowTimesP` | matlab/ins/insgps.c:1332-1336 | HP is P h |
| `SerialUpdate.GainColumn` | matlab/ins/insgps.c:1332-1342 | the gain column is P h / (h' P h + R), with a divisor of at least R, and the other columns stay |
| `SerialUpdate.ShrinkCovariance` | matlab/ins/insgps.c:1344-1348 | the in-place loop over the upper triangle subtracts the gain times HP from every entry, with nothing overwritten before it is read |
| `SerialUpdate.ProcessMeasurement` | matlab/ins/insgps.c:1332-1352 | one used measurement: covariance, gain column and state |
| `SerialUpdate.SerialUpdate` | matlab/ins/insgps.c:1321-1356 | for every mask the arrays P, X and K hold the serial covariance, state and gains, and P stays symmetric and positive semidefinite |
| `CovariancePrediction.PredictedCovariance` | matlab/ins/insgps.c:340-365 | (I + F T) P (I + F T)' + T^2 G Q G' is symmetric and positive semidefinite again when the noise variances are not negative |
| `CovariancePrediction.PredictedEntry` | matlab/ins/insgps.c:340-365 | each entry of that matrix is a polynomial of degree two in T with coefficients P, F P + P F' and F P F' + G Q G' |
| `PredictInPlace.CovariancePredictionGeneral` | matlab/ins/insgps.c:340-365 | the general loop, dividing by T and multiplying by T^2, computes that matrix for every T != 0 and every F, G, Q and symmetric P |
| `ExpandedEntries.Tables.P0_0` | matlab/ins/insgps.c:386-1302 | the expanded expression for entry (0, 0) is the entry of the sparse product; so are the other 90, one function each |
| `SparsePrediction.EntryIsPredicted` | matlab/ins/insgps.c:369-1302 | the sparse product over the entries that LinearizeFG writes, read from the upper triangle D only, is the entry of the predicted covariance |
| `PredictInPlace.CovariancePredictionExpanded` | matlab/ins/insgps.c:369-1302 | the 91 assignments compute the same matrix as the general loop, for every F and G: entries outside the pattern of LinearizeFG are taken as that pattern has them |
| `PredictionForms.LinearizedIsNormal` | matlab/ins/insgps.c:1457-1557 | the matrices LinearizeFG leaves have the pattern, so both forms agree on them |
| `PredictionForms.SamePredictionsIff` | matlab/ins/insgps.c:340-365 | two pairs F, G and E, H predict the same for every covariance and every T != 0 if and only if F == E and G and H let in the same noise |
| `PredictionForms.FormsAgreeIff` | matlab/ins/insgps.c:340-1302 | for every F and G the two forms agree on all covariances and T != 0 if and only if F has the zeros and ones that the expanded form has built in, and G lets in the noise it would let in with those of G |
| `PredictionForms.FirstPredictionDiffers` | matlab/ins/insgps.c:81-1302 | before the first linearisation F and G are zero, and the first covariance to be predicted, the initial one, is predicted differently for every T != 0: 25 against 25 + 5 T^2 for the first variance |
| `FilterRuns.InitialIsCovariance` | matlab/ins/insgps.c:81-98 | the initial covariance is symmetric and positive semidefinite |
| `FilterRuns.ResetIsCovariance` | matlab/ins/insgps.c:117-129 | zeroing the rows and columns of position and velocity and setting their variances keeps it so |
| `FilterRuns.Operation.Apply` | matlab/ins/insgps.c:81-129 | every operation keeps the covariance symmetric and positive semidefinite |
| `FilterRuns.Run` | matlab/ins/insgps.c:81-1356 | so does every sequence of initialisations, resets, predictions and corrections |
| `FilterRuns.EveryCorrection` | matlab/ins/insgps.c:1321-1356 | in every run each correction divides by numbers of at least R > 0 only, satisfies the batch covariance equation and increases no variance |
| `StateModel.StateEq` | matlab/ins/insgps.c:1412-1455 | the state derivative is velocity, rotated acceleration minus gravity, half the quaternion product with the bias-corrected rate, and zero for the biases |
| `StateModel.RungeKutta` | matlab/ins/insgps.c:1365-1391 | the in-place integration is the four-stage combination of state derivatives |
| `AttitudeStep.RateOf` | matlab/ins/insgps.c:1447-1450 | at a q + b q W the attitude derivative is again a combination of q and q W |
| `AttitudeStep.StepSpans` | matlab/ins/insgps.c:1365-1391 | one step leaves the gyro biases unchanged and moves the attitude to alpha q + beta q W with explicit alpha and beta |
| `AttitudeStep.StepNorm` | matlab/ins/insgps.c:1365-1391 | one step multiplies the squared quaternion norm by 1 - s^6/72 + s^8/576 exactly |
| `AttitudeStep.FactorBounds` | matlab/ins/insgps.c:200-206 | that factor is at least 1/4, with equality exactly at s^2 = 6, and at most one exactly up to s^2 = 8 |
| `AttitudeStep.StepNonzero` | matlab/ins/insgps.c:200-206 | a non-zero quaternion stays non-zero |
| `InsGps.Normalize` | matlab/ins/insgps.c:202-206 | a non-zero quaternion becomes a unit quaternion, the other entries stay; of a zero quaternion nothing is known afterwards |
| `FilterLaws.NormalisationScales` | matlab/ins/insgps.c:202-206 | normalisation keeps the direction of the quaternion, and all other entries |
| `InsGps.Propagate` | matlab/ins/insgps.c:200-208 | a prediction step from any non-zero quaternion never divides by zero and ends at a unit quaternion; of what a zero quaternion becomes nothing is known |
| `InsGps.PropagationKeepsBias` | matlab/ins/insgps.c:184-220 | prediction and normalisation leave the gyro biases alone |
| `Linearization.LinearizeF` | matlab/ins/insgps.c:1457-1526 | the assignments write the Jacobian of the state derivative and leave the other entries |
| `Linearization.LinearizeG` | matlab/ins/insgps.c:1528-1556 | the same for the noise input matrix |
| `Linearization.RateLinearization` | matlab/ins/insgps.c:1412-1526 | f(x + d) - f(x) - F(x) d is an explicit remainder, for every state, perturbation and component |
| `Linearization.RateRemainderQuadratic` | matlab/ins/insgps.c:1412-1526 | that remainder is homogeneous of degree two in d, so F is the exact first-order part |
| `Linearization.NoiseLinearization` | matlab/ins/insgps.c:1528-1556 | perturbing the gyro, accelerometer and bias inputs by z changes the state derivative by exactly G z |
| `Linearization.MeasurementEq` | matlab/ins/insgps.c:1559-1592 | the predicted measurements are position, velocity, the magnetic field turned into the body frame, and minus the height |
| `Linearization.LinearizeH` | matlab/ins/insgps.c:1594-1624 | the assignments write the Jacobian of the measurements and leave the other entries |
| `Linearization.MeasurementLinearization` | matlab/ins/insgps.c:1559-1624 | h(x + d) - h(x) - H(x) d is an explicit remainder |
| `Linearization.MeasurementRemainderQuadratic` | matlab/ins/insgps.c:1559-1624 | that remainder is homogeneous of degree two in d |
| `InsGps.InitCovariance` | matlab/ins/insgps.c:87-98 | the loops and chained assignments write the initial covariance |
| `FilterLaws.InitialVariances` | matlab/ins/insgps.c:81-98 | 25 for positions, 5 for velocities, 0.00001 for the others, and no correlations |
| `InsGps.ResetPosVelCovariance` | matlab/ins/insgps.c:119-129 | the reset writes the reset covariance in place |
| `InsGps.Filter.constructor` | matlab/ins/insgps.c:72-77 | the globals start as zero, so the zero entries of F, G and H are in place |
| `InsGps.Filter.Init` | matlab/ins/insgps.c:81-115 | the whole state after initialisation, and the filter's invariant: covariance symmetric and semidefinite, zero pattern, admissible noise, non-zero quaternion |
| `InsGps.Filter.PosVelReset` | matlab/ins/insgps.c:117-137 | the whole state after a reset; the invariant is kept |
| `InsGps.Filter.SetPosVelVar` | matlab/ins/insgps.c:139-147 | five noise variances change, not that of the vertical velocity; any number is stored, and a positive one keeps the invariant |
| `InsGps.Filter.SetGyroBias` | matlab/ins/insgps.c:149-154 | only the bias entries of the state change |
| `InsGps.Filter.SetAccelVar` | matlab/ins/insgps.c:156-161 | only the accelerometer variances change; any numbers are stored, and those that are not negative keep the invariant |
| `InsGps.Filter.SetGyroVar` | matlab/ins/insgps.c:163-168 | only the gyro variances change; any numbers are stored, and those that are not negative keep the invariant |
| `InsGps.Filter.SetMagVar` | matlab/ins/insgps.c:170-175 | only the magnetometer variances change; any numbers are stored, and positive ones keep the invariant |
| `InsGps.Filter.SetMagNorth` | matlab/ins/insgps.c:177-182 | only the field vector changes |
| `InsGps.Filter.StatePrediction` | matlab/ins/insgps.c:184-220 | for every state and whatever the noise settings, F and G are linearised at the old state and the state is the normalised integration step; the invariant is kept |
| `FilterLaws.ConstantAcceleration` | matlab/ins/insgps.c:1365-1455 | without rotation one step is exact: with a the rotated acceleration plus (0, 0, 9.81), velocity moves by dT a and position by dT v + dT^2 a / 2; attitude and biases stay |
| `FilterLaws.StaysAtRest` | matlab/ins/insgps.c:1365-1455 | with the accelerometer reading -9.81 along the vertical, turned into body coordinates, the velocity stays |
| `InsGps.Filter.CovariancePrediction` | matlab/ins/insgps.c:222-225 | whatever the noise settings and the state, P becomes the predicted covariance and stays symmetric; the invariant is kept |
| `InsGps.Filter.Correction` | matlab/ins/insgps.c:276-325 | for every reading and mask P is the serial covariance and stays one, the state is the corrected state with its quaternion divided by the norm, and the invariant is kept unless the corrected quaternion is zero |
| `FilterLaws.ExactReadingsChangeNothing` | matlab/ins/insgps.c:276-325 | readings equal to those predicted from the state (the field in body coordinates in any unit, position, velocity and minus the height) leave the state as it is, for every covariance, noise and mask |
| `FilterLaws.CorrectByPrediction` | matlab/ins/insgps.c:276-325 | so a whole correction with such readings, normalisation included, leaves a state with a unit quaternion as it is |
| `FilterLaws.NamedMasks` | matlab/ins/insgps.h:39-45 | the sensors of the masks for position, horizontal velocity, vertical velocity, magnetometer and barometer, and for all of them |
| `InsGps.Filter.CanLoseAttitudeIff` | matlab/ins/insgps.c:293-312 | for a magnetometer reading and a mask: some GPS and barometer readings make the corrected quaternion zero if and only if elimination takes the attitude, with the magnetometer taken in, to zero by the attitude gains of the other sensors in use |
| `AttitudeLoss.CancelsIffEliminated` | matlab/ins/insgps.c:1321-1356 | elimination decides whether a quaternion is a linear combination of given ones |
| `AttitudeLoss.StateAttitude` | matlab/ins/insgps.c:1349-1352 | the attitude after the loop is the attitude before it, plus the attitude gains times the innovations |
| `AttitudeLoss.CanVanishIff` | matlab/ins/insgps.c:1321-1356 | with the innovations of the other sensors given, those of a set of sensors can lead to the zero quaternion if and only if the attitude with the others taken in is a combination of the set's attitude gains |
| `AttitudeLoss.OneSensorVanishesIff` | matlab/ins/insgps.c:1321-1356 | with one sensor in use every innovation keeps the quaternion from vanishing if and only if it is not parallel to the attitude part of P h |
| `LostAttitude.ForwardColumn` | matlab/ins/insgps.c:222-225 | the covariances of the forward velocity after one second of forward acceleration from the initial covariance |
| `LostAttitude.RunToZero` | matlab/ins/insgps.c:81-325 | such a run exists: after Init, StatePrediction and CovariancePrediction the filter is valid, and any reading whose forward velocity is 250702 below the predicted one, with sensor 3 alone in use, makes the corrected quaternion zero |
| `CoordinateConversions.Quaternion2R` | ground/gcs/src/libs/utils/coordinateconversions.cpp:245-258 | the nine entries written |
| `CoordinateConversions.R2Quaternion` | ground/gcs/src/libs/utils/coordinateconversions.cpp:261-279 | the four entries written |
| `CoordinateConversions.MatrixIsRotation` | ground/gcs/src/libs/utils/coordinateconversions.cpp:245-258 | the matrix applied to a vector is the rotation by the conjugate quaternion |
| `CoordinateConversions.TransposeIsInverseRotation` | matlab/ins/insgps.c:1433-1445 | its transpose is the rotation that the state equations apply to the acceleration |
| `CoordinateConversions.TurnedBack` | ground/gcs/src/libs/utils/coordinateconversions.cpp:245-258 | turning a vector by the conjugate of a quaternion and then by the quaternion multiplies it by the fourth power of the norm, and so gives it back for a unit quaternion |
| `CoordinateConversions.TurnedLength` | ground/gcs/src/libs/utils/coordinateconversions.cpp:245-258 | turning by the conjugate multiplies the squared length by that power, and so keeps it for a unit quaternion |
| `CoordinateConversions.RowsOrthogonal` | ground/gcs/src/libs/utils/coordinateconversions.cpp:245-258 | the rows are orthogonal and of squared length equal to the fourth power of the norm, for every quaternion |
| `CoordinateConversions.RoundTrip` | ground/gcs/src/libs/utils/coordinateconversions.cpp:245-279 | a unit quaternion with a scalar part comes back as q or -q, whichever has the positive scalar part |
| `CoordinateConversions.RoundTripIff` | ground/gcs/src/libs/utils/coordinateconversions.cpp:245-279 | a half turn comes back up to sign exactly when the entries of its axis do not differ in sign |
| `HtmlEscape.EscapeHtml` | ground/gcs/src/libs/utils/mustache.cpp:32-56 | the in-place loop replaces each special character by its entity |
| `HtmlEscape.UnescapeHtml` | ground/gcs/src/libs/utils/mustache.cpp:58-67 | four replacements, one after the other |
| `HtmlEscape.EscapedHasNoMarkup` | ground/gcs/src/libs/utils/mustache.cpp:32-56 | escaped text has no <, > or double quote |
| `HtmlEscape.EscapeThenUnescape` | ground/gcs/src/libs/utils/mustache.cpp:32-67 | unescaping an escaped text gives the text with each literal &quot; turned into a quote |
| `HtmlEscape.RoundTripIff` | ground/gcs/src/libs/utils/mustache.cpp:32-67 | hence the text itself if and only if it holds no &quot; |
| `HtmlEscape.EscapedCharacters` | ground/gcs/src/libs/utils/mustache.cpp:36-54 | appending & < > or a double quote to a text appends &amp; &lt; &gt; &quot; to its escaped form, any other character itself |
| `TagOrder.FoundTag` | ground/gcs/src/libs/utils/mustache.cpp:387-451 | scanning from behind a tag finds a tag that starts behind it and before the limit, even when it is widened to its whole line |
| `TagOrder.SameTag` | ground/gcs/src/libs/utils/mustache.cpp:387-451 | a scan with a limit finds the tag of the scan without one exactly as long as that tag lies before the limit |
| `Renderer.Context.Value` | ground/gcs/src/libs/utils/mustache.cpp:126-139 | the innermost value on the stack for a dotted path |
| `Renderer.Context.StringValue` | ground/gcs/src/libs/utils/mustache.cpp:163-169 | false values have an empty text |
| `Renderer.Context.ListCount` | ground/gcs/src/libs/utils/mustache.cpp:188-194 | the number of items of a list, zero for other values |
| `Renderer.Context.Push` | ground/gcs/src/libs/utils/mustache.cpp:171-181 | one more entry: the value of the key, or one item of it |
| `Renderer.Context.Pop` | ground/gcs/src/libs/utils/mustache.cpp:183-186 | the last entry is gone |
| `Renderer.ReadTagName` | ground/gcs/src/libs/utils/mustache.cpp:453-466 | the first word from the position on |
| `Renderer.ExpandTag` | ground/gcs/src/libs/utils/mustache.cpp:536-559 | the tag takes its line exactly when nothing but white space shares it |
| `Renderer.ScanTag` | ground/gcs/src/libs/utils/mustache.cpp:387-451 | the loops find the tag that the declarative description of tags gives |
| `Renderer.Renderer.FindEndTag` | ground/gcs/src/libs/utils/mustache.cpp:503-528 | the end tag reached after leaving all nested sections, or an error for a key that does not match |
| `TemplateScan.EndTagCloses` | ground/gcs/src/libs/utils/mustache.cpp:503-528 | for a well-formed body that is the tag the parser closes the body with |
| `TemplateScan.FirstTag` | ground/gcs/src/libs/utils/mustache.cpp:270-372 | a rescan of a body sees the tags the first scan saw |
| `TemplateScan.ScanIsParse` | ground/gcs/src/libs/utils/mustache.cpp:270-372 | looking for the end tag first and scanning the body again yields, for a well-formed stretch, the tree that parsing in one pass yields |
| `TemplateScan.ScanSoundIff` | ground/gcs/src/libs/utils/mustache.cpp:270-372 | the tree of a scan has no broken place if and only if the template is well formed: all sections nested and closed by tags of their own key |
| `TemplateScan.NoDelimiters` | ground/gcs/src/libs/utils/mustache.cpp:387-451 | a well-formed template has no tag that changes the markers |
| `Tags.TakesLine` | ground/gcs/src/libs/utils/mustache.cpp:536-559 | a tag that shares its line with blanks, tabs and the like only takes everything from the line break before it through the one behind it, or from the start and through the end of the text |
| `Tags.SharesLine` | ground/gcs/src/libs/utils/mustache.cpp:536-559 | with any other character between the tag and the line breaks it stays as it is |
| `TemplateText.WrittenIsParsed` | ground/gcs/src/libs/utils/mustache.cpp:387-528 | round trip: each tree of text, variables in the three forms and sections of both kinds, nested to any depth, is what parsing the line of text that writes it down gives |
| `TemplateText.WrittenIsScanned` | ground/gcs/src/libs/utils/mustache.cpp:270-528 | so is what the renderer's scans make of that text, which is well formed |
| `TemplateLaws.SafeEval` | ground/gcs/src/libs/utils/mustache.cpp:283-335 | whatever the context holds, text without < > and double quotes, variables in double braces and sections of such parts have an output without those characters |
| `TemplateLaws.VariableForms` | ground/gcs/src/libs/utils/mustache.cpp:283-294 | between plain texts {{k}} is output as the value of k with its special characters escaped, {{&k}} as the value unescaped, {{{k}}} as the value |
| `SingleTags.SpacedVariable` | ground/gcs/src/libs/utils/mustache.cpp:428-466 | white space around the key of a variable makes no difference, and neither does what follows the key behind it |
| `SingleTags.RawWithRest` | ground/gcs/src/libs/utils/mustache.cpp:432-443 | with more text behind the key's closing brace the raw variable ends at the next two braces, and the text is ignored |
| `TemplateLaws.SectionForms` | ground/gcs/src/libs/utils/mustache.cpp:295-335 | of {{#k}}w{{/k}} and {{^k}}w{{/k}} exactly one renders w, a template with sections of its own: the second, once, when the value of k is false; else the first, once for each item of a list in the list's order, each time with the item innermost on the stack, or once with any other value innermost |
| `SingleTags.RemarkForms` | ground/gcs/src/libs/utils/mustache.cpp:340-365 | a comment between plain texts leaves nothing, and neither does a partial |
| `TemplateErrors.StrayEnd` | ground/gcs/src/libs/utils/mustache.cpp:336-339 | an end tag without a start tag: the text before it is output, and the error is at its start |
| `TemplateErrors.NeverClosed` | ground/gcs/src/libs/utils/mustache.cpp:295-327 | a start tag without an end tag: the error is at its start, whatever the value of its key |
| `TemplateErrors.WrongEnd` | ground/gcs/src/libs/utils/mustache.cpp:503-528 | an end tag with another key than the start tag: the error is at the end tag |
| `TemplateLaws.FalseValues` | ground/gcs/src/libs/utils/mustache.cpp:141-169 | false are an absent value, the Boolean false, the empty text, the empty list and the empty map, and no other value; they are output as nothing |
| `TemplateLaws.SplitAtDots` | ground/gcs/src/libs/utils/mustache.cpp:131 | the parts of a key hold no dot and, joined by dots, give the key |
| `TemplateLaws.PathSteps` | ground/gcs/src/libs/utils/mustache.cpp:106-124 | a path leads through the maps one key after the other |
| `TemplateLaws.Innermost` | ground/gcs/src/libs/utils/mustache.cpp:132-137 | the value is that of the innermost entry of the stack that has one |
| `TemplateLaws.InnermostKey` | ground/gcs/src/libs/utils/mustache.cpp:126-139 | the point is the entry on top of the stack, and a key without points has its value in the innermost map that holds it |
| `Templates.SoundEval` | ground/gcs/src/libs/utils/mustache.cpp:270-372 | without a broken place no context leads to an error |
| `Renderer.Renderer.FindSectionEnd` | ground/gcs/src/libs/utils/mustache.cpp:297-302 | the end tag of the section, or an error at the start tag when there is none and at the end tag when its key does not match |
| `Renderer.Renderer.RenderSection` | ground/gcs/src/libs/utils/mustache.cpp:303-317 | the body once for each item of a list that is not empty, once for another value that is not false, and no more after an error |
| `Renderer.Renderer.Render` | ground/gcs/src/libs/utils/mustache.cpp:270-372 | rendering terminates and leaves the context stack as it was; for every stretch, well formed or not, the output and the position of the error are those of the tree of the scan, evaluated up to the first malformed section that is entered; after an error nothing is rendered |
| `Renderer.Renderer.RenderTemplate` | ground/gcs/src/libs/utils/mustache.cpp:258-268 | the same for whole templates; a well-formed template has no error in any context, and its output is the value of its parse tree; when its text has no < > or double quote and its variables are in double braces only, neither has the output, in any context |
| `PluginSpecs.VersionOrder` | ground/gcs/src/libs/extensionsystem/pluginspec.cpp:700-724 | versions are totally ordered |
| `PluginSpecs.CompareIsBefore` | ground/gcs/src/libs/extensionsystem/pluginspec.cpp:700-724 | the comparison is negative exactly when, at the first of major, minor, micro and build number in which two versions differ, the first version has the smaller number |
| `PluginSpecs.ProvidesIff` | ground/gcs/src/libs/extensionsystem/pluginspec.cpp:669-675 | a plugin provides a real version exactly when the names agree, its own version is not earlier and its compatibility version not later, by the first component that differs |
| `PluginSpecs.UpdateStillProvides` | ground/gcs/src/libs/extensionsystem/pluginspec.cpp:669-675 | a plugin with a version that is not earlier and a compatibility version that is not later still provides what it provided |
| `PluginSpecs.Spec.FindProvider` | ground/gcs/src/libs/extensionsystem/pluginspec.cpp:742-757 | the first specification of the list that provides the dependency, or none if there is none |
| `PluginSpecs.Spec.ResolveDependencies` | ground/gcs/src/libs/extensionsystem/pluginspec.cpp:730-770 | success exactly when there is no earlier error, the state allows it and every dependency has a provider; each dependency is then its first provider |
| `DependencyGraph.LoadableIff` | ground/gcs/src/libs/extensionsystem/pluginmanager.cpp:606-659 | a plugin has a finite unfolding of ready dependencies exactly when all it reaches is ready and lies on no cycle |
| `LoadQueue.OpenNodesStep` | ground/gcs/src/libs/extensionsystem/pluginmanager.cpp:616-659 | unfinished entries of the circularity list lead to the plugin at hand, although the list is never shortened |
| `LoadQueue.LoadQueueFrom` | ground/gcs/src/libs/extensionsystem/pluginmanager.cpp:616-659 | terminates on every graph; true exactly for loadable plugins, so no false cycle reports; the queue is duplicate-free with dependencies first |
| `LoadQueue.LoadDependencies` | ground/gcs/src/libs/extensionsystem/pluginmanager.cpp:646-655 | the loop over the dependencies succeeds exactly when all of them can be loaded |
| `LoadQueue.LoadQueueAll` | ground/gcs/src/libs/extensionsystem/pluginmanager.cpp:606-614 | the queue holds exactly the loadable plugins, dependencies first, and exactly the others are marked with an error |
| `LoadPhases.ForwardOrder` | ground/gcs/src/libs/extensionsystem/pluginmanager.cpp:581-600 | the calls of a forward pass are in queue order, after those of the dependencies |
| `LoadPhases.FailureSpreads` | ground/gcs/src/libs/extensionsystem/pluginmanager.cpp:677-685 | a failure keeps all dependents, at any distance, from being called |
| `PluginManager.Manager.Advance` | ground/gcs/src/libs/extensionsystem/pluginspec.cpp:776-887 | the three loading steps: which calls are made, which states and errors result |
| `PluginManager.Manager.Stop` | ground/gcs/src/libs/extensionsystem/pluginspec.cpp:893-900 | shutdown call and state |
| `PluginManager.Manager.Kill` | ground/gcs/src/libs/extensionsystem/pluginspec.cpp:906-914 | deletion and state |
| `PluginManager.Manager.LoadPlugin` | ground/gcs/src/libs/extensionsystem/pluginmanager.cpp:665-693 | the step for each destination state, with its dependency check |
| `PluginManager.Manager.ForwardPass` | ground/gcs/src/libs/extensionsystem/pluginmanager.cpp:583-589 | calls and final states of a pass over the queue |
| `PluginManager.Manager.BackwardPass` | ground/gcs/src/libs/extensionsystem/pluginmanager.cpp:590-594 | calls and final states of a reverse pass |
| `PluginManager.Manager.LoadPlugins` | ground/gcs/src/libs/extensionsystem/pluginmanager.cpp:581-600 | the calls of a start, and which plugins are running after it; every plugin that cannot be loaded has an error |
| `PluginManager.Manager.StopAll` | ground/gcs/src/libs/extensionsystem/pluginmanager.cpp:513-524 | the calls of a stop; all running plugins end deleted |
| `PluginManager.Manager.Run` | ground/gcs/src/libs/extensionsystem/pluginmanager.cpp:513-600 | the call log of a whole run with arbitrary failures is the one the lemmas of RunOrder are about |
| `RunOrder.RunningIff` | ground/gcs/src/libs/extensionsystem/pluginmanager.cpp:665-693 | a plugin comes up exactly when it is queued, its dependencies come up and its own two calls succeed |
| `RunOrder.EachCallOnce` | ground/gcs/src/libs/extensionsystem/pluginmanager.cpp:513-600 | no plugin receives a call twice |
| `RunOrder.InitializedAfterDependencies` | ground/gcs/src/libs/extensionsystem/iplugin.cpp:194-209 | initialize comes after the successful initialize of every plugin it depends on, directly or not |
| `RunOrder.FailureStopsDependents` | ground/gcs/src/libs/extensionsystem/pluginmanager.cpp:677-693 | after a failure no direct or indirect dependent is initialized, run or shut down |
| `RunOrder.ExtensionsAfterDependents` | ground/gcs/src/libs/extensionsystem/iplugin.cpp:194-209 | extensionsInitialized comes after that of every direct or indirect dependent that has not failed |
| `RunOrder.ShutdownIff` | ground/gcs/src/libs/extensionsystem/iplugin.cpp:241-248 | exactly the running plugins are shut down and deleted |
| `RunOrder.ShutdownInOrder` | ground/gcs/src/libs/extensionsystem/pluginmanager.cpp:513-524 | shutdown comes after that of every direct or indirect dependency, deletion before theirs |
| `PluginReading.ResolveAll` | ground/gcs/src/libs/extensionsystem/pluginmanager.cpp:737-742 | exactly the plugins without an error whose dependencies all have a provider are resolved, to the first providers; all others have an error |
| `PluginReading.SortIsSorted` | ground/gcs/src/libs/extensionsystem/pluginmanager.cpp:733 | the sort by name orders the list and keeps its members |
| `PluginReading.NameLessIff` | ground/gcs/src/libs/extensionsystem/pluginmanager.cpp:159-162 | one name comes before another exactly when, behind a common beginning, it ends first or goes on with the smaller character |
| `PluginReading.SortPermutes` | ground/gcs/src/libs/extensionsystem/pluginmanager.cpp:733 | and keeps each as often as it was there |
| `PluginReading.SortKeepsFirstProviders` | ground/gcs/src/libs/extensionsystem/pluginmanager.cpp:731-733 | the first providers found before the sort are the first providers after it if and only if no provider of a dependency comes by name before the one chosen |
| `PluginReading.ReadPluginPaths` | ground/gcs/src/libs/extensionsystem/pluginmanager.cpp:709-735 | resolve, then sort: the list is sorted by name, and each dependency is the first provider in it if and only if that condition holds |
| `PluginReading.SortMovesProvider` | ground/gcs/src/libs/extensionsystem/pluginmanager.cpp:731-733 | an input for which it does not hold: core and Core are read in this order, a dependency on core is resolved to core, and after the sort Core is the first provider |
| `OptionsParser.WalkRemoves` | ground/gcs/src/libs/extensionsystem/optionsparser.cpp:64-148 | only -noload removes plugins: those left are the plugins without the removed ones, and each removed plugin has the name that follows a -noload |
| `OptionsParser.NoLoads` | ground/gcs/src/libs/extensionsystem/optionsparser.cpp:64-148 | a command line of -noload options takes out the first plugin of each name in turn, and has an error if and only if a name is not that of a plugin still left |
| `OptionsParser.NoLoadBehindEnd` | ground/gcs/src/libs/extensionsystem/optionsparser.cpp:97-106 | behind -- a -noload is an argument like any other, and the plugin it names stays |
| `OptionLines.LineRead` | ground/gcs/src/libs/extensionsystem/optionsparser.cpp:64-193 | a command line of application options, -test and -noload with names, plugin options and plain arguments is read one after the other, each with its own effect, whatever follows |
| `OptionLines.LineOutcome` | ground/gcs/src/libs/extensionsystem/optionsparser.cpp:64-193 | nothing behind such a line: the outcome is that of its last part, without an error of its own |
| `OptionLines.LineError` | ground/gcs/src/libs/extensionsystem/optionsparser.cpp:108-210 | behind such a line a missing argument, an unknown name or an unknown option is an error and ends the reading, and the plugins stay as they are |
| `OptionLines.FoundLast` | ground/gcs/src/libs/extensionsystem/optionsparser.cpp:150-165 | of an application option that is given several times the last argument is found |
| `OptionLines.NotFound` | ground/gcs/src/libs/extensionsystem/optionsparser.cpp:150-165 | an application option is found exactly when it is on the line, or was found before |
| `OptionLines.TestsInOrder` | ground/gcs/src/libs/extensionsystem/optionsparser.cpp:108-126 | after a line of -test options the plugins to test are those of the names, in order |
| `OptionLines.GivenLast` | ground/gcs/src/libs/extensionsystem/optionsparser.cpp:167-180 | a plugin option adds the option and its argument to what its plugin was given, and nothing to the other plugins |
| `OptionLines.FirstIs` | ground/gcs/src/libs/extensionsystem/pluginmanager.cpp:745-775 | a name or an option means the first plugin of the list that has it |
| `OptionsParser.Parser.Parse` | ground/gcs/src/libs/extensionsystem/optionsparser.cpp:64-95 | on every command line the plugins left and removed, the arguments for application and plugins and the error are those of Walk, the meaning of a command line; after a removal each plugin left is resolved exactly if it has no error and all providers, without one nothing is resolved again; so each dependency is the first provider in the list if and only if a plugin was removed or it was so before |
| `OptionsParser.ReadAndParse` | ground/gcs/src/libs/extensionsystem/optionsparser.cpp:64-95 | reading and parsing together: each dependency is the first provider in the final list if and only if a plugin was removed or the sort by name did no harm |
| `OptionsParser.Parser.CheckForNoLoadOption` | ground/gcs/src/libs/extensionsystem/optionsparser.cpp:128-148 | handled exactly for -noload: the first plugin of the name that follows leaves the list and a refresh is requested, or there is an error |
| `OptionsParser.Parser.CheckForEndOfOptions` | ground/gcs/src/libs/extensionsystem/optionsparser.cpp:97-106 | the rest of the command line becomes arguments |
| `OptionsParser.Parser.NextToken` | ground/gcs/src/libs/extensionsystem/optionsparser.cpp:195-210 | the next argument, or an error when one is required |
| `OptionsParser.SettledIsFresh` | ground/gcs/src/libs/extensionsystem/optionsparser.cpp:64-95 | what the parser leaves satisfies what the load run needs |
| `Checksums.FoldLinear` | ground/gcs/src/experimental/USB_UPLOAD_TOOL/op_dfu.cpp:1015-1042 | a fold with a linear step is linear in message and start value |
| `Checksums.OneWordDetected` | ground/gcs/src/experimental/USB_UPLOAD_TOOL/op_dfu.cpp:1015-1042 | a fold with an invertible step tells apart messages that differ in one word |
| `Checksums.DivisionLinear` | ground/gcs/src/experimental/USB_UPLOAD_TOOL/op_dfu.cpp:1031-1038 | shifting out a bit and subtracting the polynomial is linear |
| `Crc32.TableRound` | ground/gcs/src/experimental/USB_UPLOAD_TOOL/op_dfu.cpp:1020-1038 | one round by the nibble table is four steps of the division by 0x04C11DB7 |
| `Crc32.CRC32WideFast` | ground/gcs/src/experimental/USB_UPLOAD_TOOL/op_dfu.cpp:1015-1042 | the loop computes the checksum by division, for every buffer |
| `Crc32.WordIsSerial` | ground/gcs/src/experimental/USB_UPLOAD_TOOL/op_dfu.cpp:1031-1038 | a word step is the division of its 32 bits taken in one by one, most significant first |
| `Crc32.ChecksumLinear` | ground/gcs/src/experimental/USB_UPLOAD_TOOL/op_dfu.cpp:1015-1042 | the checksum of a XOR is the XOR of the checksums |
| `Crc32.ChangedWordDetected` | ground/gcs/src/experimental/USB_UPLOAD_TOOL/op_dfu.cpp:1015-1042 | a change in one word is always detected |
| `Crc32.OwnChecksum` | ground/gcs/src/experimental/USB_UPLOAD_TOOL/op_dfu.cpp:1015-1042 | a message followed by its own checksum has the checksum zero |
| `Crc32.PolynomialIs` | ground/gcs/src/experimental/USB_UPLOAD_TOOL/op_dfu.cpp:1020-1025 | the checksum of the single bit 1 from zero is 0x04C11DB7 |
| `Crc32.CRCFromQBArray` | ground/gcs/src/experimental/USB_UPLOAD_TOOL/op_dfu.cpp:1047-1065 | the checksum, from 0xFFFFFFFF, of the words whose bytes, lowest first, are those of the image padded with 0xFF to the size |
| `Crc32.ImageBytes` | ground/gcs/src/experimental/USB_UPLOAD_TOOL/op_dfu.cpp:1052-1062 | the bytes of word x, from the lowest to the highest, are bytes 4 x to 4 x + 3 of the image, or 0xFF behind its end |
| `Crc32.ChangedByteDetected` | ground/gcs/src/experimental/USB_UPLOAD_TOOL/op_dfu.cpp:1047-1065 | a changed byte is detected exactly when it is not in an incomplete last word |
| `Crc32.SameWordsIff` | ground/gcs/src/experimental/USB_UPLOAD_TOOL/op_dfu.cpp:1047-1065 | two images have the same words if and only if their padded bytes agree up to the last complete word |
| `Crc32.PaddingInvisible` | ground/gcs/src/experimental/USB_UPLOAD_TOOL/op_dfu.cpp:1047-1065 | trailing bytes cannot be told from padding if and only if those in complete words are 0xFF |
| `Crc8.TableIsShift` | ground/gcs/src/libs/utils/crc.cpp:44-61 | each of the 256 entries is eight steps of the division by 0x07 |
| `Crc8.UpdateByte` | ground/gcs/src/libs/utils/crc.cpp:63-66 | one byte |
| `Crc8.UpdateCRC` | ground/gcs/src/libs/utils/crc.cpp:68-74 | a buffer |
| `Crc8.ByteIsSerial` | ground/gcs/src/libs/utils/crc.cpp:63-66 | a byte step is the division of its eight bits taken in one by one |
| `Crc8.ChecksumLinear` | ground/gcs/src/libs/utils/crc.cpp:68-74 | the checksum of a XOR is the XOR of the checksums |
| `Crc8.ChangedByteDetected` | ground/gcs/src/libs/utils/crc.cpp:68-74 | a change in one byte is always detected |
| `Crc8.OwnChecksum` | ground/gcs/src/libs/utils/crc.cpp:68-74 | a message followed by its own checksum has the checksum zero |
| `Crc8.PolynomialIs` | ground/gcs/src/libs/utils/crc.cpp:34-66 | the checksum of the single bit 1 from zero is 0x07 |
| `LogFile.RoundTripIff` | ground/gcs/src/libs/utils/logfile.cpp:61-161 | what a replay takes from written records is those records if and only if the payloads have 1 to 1048576 bytes, the times are below 2^31 and never go back or jump by more than an hour |
| `LogLayout.RecordLayout` | ground/gcs/src/libs/utils/logfile.cpp:61-81 | a record in the file: bytes 0 to 3 hold the time stamp and bytes 4 to 11 the length, the lowest byte first, and the payload starts at byte 12 |
| `LogLayout.FileLayout` | ground/gcs/src/libs/utils/logfile.cpp:61-81 | the records follow one another in the file without gaps |
| `LogLayout.PlayableIff` | ground/gcs/src/libs/utils/logfile.cpp:108-145 | the limits in numbers: payloads of 1 to 1048576 bytes, times below 2^31 that do not go back and go on by at most 3600000 |
| `LogFile.ParsedPlayable` | ground/gcs/src/libs/utils/logfile.cpp:108-145 | from any file a replay takes only such records |
| `LogFile.LogFile.WriteData` | ground/gcs/src/libs/utils/logfile.cpp:61-81 | one more record at the end of the file, or nothing when it cannot be written |
| `LogFile.LogFile.ReadData` | ground/gcs/src/libs/utils/logfile.cpp:82-90 | bytes leave the buffer at the front |
| `LogFile.LogFile.StartReplay` | ground/gcs/src/libs/utils/logfile.cpp:155-166 | a replay of a file with any content at any speed |
| `LogFile.LogFile.ReadRecord` | ground/gcs/src/libs/utils/logfile.cpp:108-145 | the next record goes into the buffer; the replay ends exactly where the file is used up or malformed |
| `LogFile.Counting` | ground/gcs/src/libs/utils/logfile.cpp:105-107 | the played time stays between speed times the counted time, less one millisecond for each conversion to an integer, and speed times the counted time |
| `LogFile.LogFile.DeliverRecord` | ground/gcs/src/libs/utils/logfile.cpp:106-149 | the next record is delivered only when speed times running time exceeds its time stamp, although the played time is truncated at every step |
| `LogFile.LogFile.TimerFired` | ground/gcs/src/libs/utils/logfile.cpp:97-153 | each record delivered was due by the running time; each one left has a time stamp that the running time, less what resumptions lost and one millisecond for each delivery, has not passed |
| `LogFile.LogFile.PauseReplay` | ground/gcs/src/libs/utils/logfile.cpp:175-178 | the timer stops, and the running time with it |
| `LogFile.LogFile.ResumeReplay` | ground/gcs/src/libs/utils/logfile.cpp:180-184 | the offset becomes the present time and the played time stays: the pause is not counted, and the running time before it since the last delivery is lost |
| `LogFile.LogFile.Replay` | ground/gcs/src/libs/utils/logfile.cpp:82-184 | over every sequence of timer events, pauses, resumptions and reads, on every file: the bytes read and buffered are the payloads delivered so far, in order; each was due by the running time; after a timer event nothing is left that should have been delivered; without resumptions no running time is lost |
| `LogLayout.DueIs` | ground/gcs/src/libs/utils/logfile.cpp:105-107 | a record is due exactly when speed times running time exceeds its time stamp; at normal speed, when the running time does |
| `LogLayout.TowardsZero` | ground/gcs/src/libs/utils/logfile.cpp:105-107 | played time is stored as the next integer towards zero |
| `LogLayout.PayloadsAdd` | ground/gcs/src/libs/utils/logfile.cpp:118-125 | the payloads of a list of records are those of its first part followed by those of the rest |
| `LogLayout.LeftAtNormalSpeed` | ground/gcs/src/libs/utils/logfile.cpp:105-150 | at normal speed, what a timer event leaves has time stamps of at least the running time less what resumptions lost and one millisecond for each delivery |
| `FileSearch.CompareRegion` | ground/gcs/src/libs/utils/filesearch.cpp:133-163 | the comparison by first byte, last byte and the rest finds exactly the matches |
| `FileSearch.SearchChunk` | ground/gcs/src/libs/utils/filesearch.cpp:124-178 | the loop over a chunk counts lines and reports the matches of its start positions |
| `FileSearch.SearchFile` | ground/gcs/src/libs/utils/filesearch.cpp:115-181 | the overlapping chunks test every start position exactly once, and the search terminates |
| `FileSearch.MatchesAre` | ground/gcs/src/libs/utils/filesearch.cpp:115-181 | one report for each match position, in order; none for a term that starts with a line break |
| `FileSearch.StartsAre` | ground/gcs/src/libs/utils/filesearch.cpp:115-181 | the match positions are those of the naive search |
| `FileSearch.ColumnIff` | ground/gcs/src/libs/utils/filesearch.cpp:121-171 | the reported column is the column in the line exactly when the line began in the same chunk; otherwise it is smaller |
| `FileSearch.ReportIs` | ground/gcs/src/libs/utils/filesearch.cpp:115-181 | a report in numbers: one more than the count of bytes 10 before the match, and the distance from the last such byte, or from the last multiple of 100001 less the length of the term when that comes later |
| `UavObjects.SortedBySize` | ground/uavobjgenerator/uavobjectparser.cpp:117-120 | the stable sort puts the four-byte, two-byte and one-byte fields one after the other, each in their order |
| `UavObjects.SortedPermutes` | ground/uavobjgenerator/uavobjectparser.cpp:216-217 | sorting only reorders |
| `UavObjects.GetNumBytes` | ground/uavobjgenerator/uavobjectparser.cpp:102-115 | the offset behind the last field |
| `UavObjects.SizeAdds` | ground/uavobjgenerator/uavobjectparser.cpp:102-115 | the size of two lists of fields one after the other is the sum of their sizes |
| `UavObjects.SortedSize` | ground/uavobjgenerator/uavobjectparser.cpp:102-120 | the sort does not change the size |
| `UavHashes.FieldTypes` | ground/uavobjgenerator/uavobjectparser.cpp:37-46 | the codes and sizes of the eight field types |
| `UavObjects.FieldsAligned` | ground/uavobjgenerator/uavobjectparser.cpp:216-217 | after the sort every offset is a multiple of the field's element size |
| `UavObjects.EmitRanges` | ground/uavobjgenerator/generators/matlab/uavobjectgeneratormatlab.cpp:147-173 | the ranges the generator writes |
| `UavObjects.RangeContiguous` | ground/uavobjgenerator/generators/matlab/uavobjectgeneratormatlab.cpp:162-172 | a range ends where the next field starts exactly when the field has elements |
| `UavObjects.RangesTile` | ground/uavobjgenerator/generators/matlab/uavobjectgeneratormatlab.cpp:147-173 | with positive element counts the ranges are disjoint, in order and end at the object's size |
| `UavObjects.RangesMeet` | ground/uavobjgenerator/generators/matlab/uavobjectgeneratormatlab.cpp:147-173 | the first range starts at 0, and the range of the next field starts right behind exactly when the field has elements |
| `UavObjects.UpdateHashText` | ground/uavobjgenerator/uavobjectparser.cpp:304-314 | the hash of a text, byte by byte |
| `UavObjects.CalculateID` | ground/uavobjgenerator/uavobjectparser.cpp:266-289 | the ID of an object |
| `UavObjects.IDCanonical` | ground/uavobjgenerator/uavobjectparser.cpp:216-289 | field lists with the same fields in each size class, however interleaved and described, have the same ID |
| `UavHashes.KindShows` | ground/uavobjgenerator/uavobjectparser.cpp:276-278 | a changed type of a field that is no enumeration changes the field's hash |
| `UavHashes.CountShows` | ground/uavobjgenerator/uavobjectparser.cpp:276-277 | so does a changed count, up to that point, unless the counts agree in their low 16 bits |
| `UavHashes.LastByteShows` | ground/uavobjgenerator/uavobjectparser.cpp:304-314 | and a changed last byte of a name |
| `UavHashes.LastKindIff` | ground/uavobjgenerator/uavobjectparser.cpp:266-289 | the ID misses a changed type of the last field exactly when the two codes are neighbours and the lower one and the mixed hash before it add up to an even number |
| `UavHashes.TypeUnseen` | ground/uavobjgenerator/uavobjectparser.cpp:259-289 | the object A with the single field x has the ID 0x8BE499FA whether x is int16 or int32 |
| `UavHashes.CountUnseen` | ground/uavobjgenerator/uavobjectparser.cpp:259-289 | the object E with the single int8 field e has the ID 0x9C770410 with 30 and with 35 elements |
| `UavObjects.SortIdempotent` | ground/uavobjgenerator/uavobjectparser.cpp:216-217 | sorting a sorted list changes nothing |
| `UavObjects.CheckIDs` | ground/uavobjgenerator/main.cpp:180-195 | the loop accepts exactly the lists of distinct IDs that are not zero |
| `UavObjects.AllIDsDistinct` | ground/uavobjgenerator/main.cpp:180-195 | then all object IDs and all metadata IDs are distinct |

## Left out

- `InsGps.Filter.Correction`: is specified for positive measurement variances, although the setters store any number, since a divisor could otherwise be zero, and for a covariance that is semidefinite; of the three magnetometer slots for a reading of magnitude zero, and of the quaternion after a corrected quaternion of zero, nothing is promised; the source holds NaN there.
- `InsGps.Filter.CanLoseAttitudeIff`: for a magnetometer reading that is not zero.
- `InsGps.Propagate`: the square root is any function with root(x) >= 0 and root(x)^2 == x for x >= 0.
- `Renderer.Renderer.RenderTemplate`: requires a template in which no scan meets a `{{=` tag, since changes of the markers take effect during scans; partials render as nothing, as in a context without a resolver; contexts hold no functions, so there are no lambda sections.
- `TemplateText.WrittenIsParsed`: trees whose text has no braces and no line breaks, with keys of one word; on more lines a section tag that is alone on its line takes the line with it (`Tags.TakesLine`).
- `LogFile.RoundTripIff`: requires times below 2^32 and payload sizes below 2^63, which is what the file format can hold.
- `LogFile.LogFile.Replay`: the playback speed is any number but stays constant; reads, pauses and resumptions come between timer events, not during one; reads after `stopReplay` are allowed, while `QIODevice::read` gives nothing from a closed device, so that what is still buffered when the replay ends is out of the consumer's reach; the overflow of `m_lastPlayed` and of the difference of two time stamps, and the wrap of the clock at midnight, are not modelled.
- `FileSearch.SearchFile`: requires a term that is not empty; only the case-sensitive search without whole words, and not the matching line's text, which is read beyond the chunk.
- `Crc32.CRCFromQBArray`: requires that the image has no more complete words than the given size; with more the source writes behind the end of its array.
- `OptionsParser.Parser.Parse`: starts from plugins as reading, resolving and sorting leaves them; the lines about `-test` and the options of plugins are in the meaning of a command line, the texts of the errors are not.
- `PluginReading.ReadPluginPaths`: the sort keeps plugins of equal names in their order, which the library's sort does not promise; names are compared by character code.
- `PluginSpecs.Spec.ResolveDependencies`: version strings are already split into numbers, and names are compared up to the case of A to Z only; the text of error messages is not kept.
- Floating point rounding, overflow and NaN in the filter and the conversions: arithmetic is over real numbers.
- The conversions between LLA, ECEF, NED and roll-pitch-yaw: they rest on trigonometric functions.
- The wrappers around `INSCorrection` (insgps.c, lines 229 to 274): each is one call with a mask.
- Library loading, the calls into a plugin, XML reading and Qt signals: calls succeed or fail arbitrarily.
- White space is that of ASCII, and numbers and dates in a template context are texts.
- The DFU protocol, the serial transport and the device side.
- The output of the other generators, and the data that the Matlab generator emits besides the byte ranges.
- File names, file access, the progress reports and cancellation of the search; short reads of a file.
- Locks and threads, user interface, console programs, packaging.
