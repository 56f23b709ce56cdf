# MultiScanRegistration: scan-mapper setup and warm-up gate

This project models the two pieces of logic in the LOAM multi-scan registration
ROS node (`MultiScanRegistration`):

- **setup** resolves which scan mapper the node uses. It first runs the base
  `ScanRegistration` setup. Then it looks at the `lidar_model` parameter:
  `"VLP-16"`, `"HDL-32"` and `"HDL-64E"` select a preset, and any other name
  fails. Only when no model name is set does it read the explicit triple
  `min_vertical_angle`, `max_vertical_angle`, `n_scan_rings`. The triple is
  rejected when `min >= max` (checked first) or when `n < 2`. Otherwise the
  linear mapper is set to exactly those values. When neither form is complete,
  setup logs an error, keeps the mapper it already has (the VLP-16 default)
  and still succeeds. Every successful setup subscribes to the input cloud topic.
- **handleCloudMessage** is a warm-up gate. While the system delay counter is
  positive, each frame decrements it by one and is dropped. Once the counter
  is zero, each frame is passed to processing with its own header stamp and
  the counter stays zero.

Layout:

- `scan_setup.dfy` (module `ScanSetup`): the parameter set, the decision chain
  `Resolve` as a pure function, and lemmas for each of its rules.
- `warm_up.dfy` (module `WarmUp`): one gate step `Handle`, the replay of a
  whole frame sequence `Replay`, and its closed form.
- `registration.dfy` (module `Registration`): the class
  `MultiScanRegistration` with the mutable fields the source updates. `Setup`
  mirrors the source's if/else chain imperatively and is proved equal to
  `Resolve`. `HandleCloudMessage` mutates the counter. Its invariant `Valid()`
  ties the counter and the processed stamps to `Replay` over every frame
  received so far.

With neither form complete, setup logs "Invalid scan registration parameters"
(line 83) but still returns true and keeps the current mapper (lines 84-85,
91). The model does the same.

## Model

| member | source | states |
|---|---|---|
| `ScanSetup.ParseLidarModel` | loam_ros/src/wrappers/MultiScanRegistration.cpp:56-65 | a model name is recognised only when it is exactly one preset's name, and then as that preset; no other string is recognised |
| `ScanSetup.ParseModelNameRoundTrip` | loam_ros/src/wrappers/MultiScanRegistration.cpp:56-61 | each of the three supported names is recognised as the preset it names |
| `ScanSetup.Resolve` | loam_ros/src/wrappers/MultiScanRegistration.cpp:42-92 | success implies the base setup succeeded; a preset is chosen only from the given name; a linear choice always has min < max and n >= 2 and no name; the mapper is kept only without a name and with an incomplete triple |
| `ScanSetup.BaseFailureStops` | loam_ros/src/wrappers/MultiScanRegistration.cpp:45-47 | if the base setup fails, setup fails whatever the parameters |
| `ScanSetup.LidarModelSelectsPreset` | loam_ros/src/wrappers/MultiScanRegistration.cpp:55-66 | with a model name present, setup chooses preset m exactly when the name is m's name, succeeds exactly for the three supported names, and otherwise fails with an invalid-model error |
| `ScanSetup.ModelNameTakesPrecedence` | loam_ros/src/wrappers/MultiScanRegistration.cpp:55-70 | when a model name is present, the explicit triple has no influence on the outcome |
| `ScanSetup.InvalidRangeCheckedFirst` | loam_ros/src/wrappers/MultiScanRegistration.cpp:71-73 | with no name and a complete triple with min >= max, setup fails with the range error, whatever the ring count |
| `ScanSetup.InvalidRingCountRejected` | loam_ros/src/wrappers/MultiScanRegistration.cpp:74-76 | with no name and a complete triple with min < max and n < 2, setup fails with the ring-count error |
| `ScanSetup.ValidTripleSetsLinear` | loam_ros/src/wrappers/MultiScanRegistration.cpp:68-78 | setup chooses the linear mapper (lo, hi, n) exactly when the base succeeded, no name is present, the triple is (lo, hi, n), lo < hi and n >= 2 |
| `ScanSetup.IncompleteParamsKeepDefault` | loam_ros/src/wrappers/MultiScanRegistration.cpp:82-85 | setup succeeds while keeping the mapper exactly when the base succeeded, no name is present and some member of the triple is missing |
| `ScanSetup.SetupSucceedsIff` | loam_ros/src/wrappers/MultiScanRegistration.cpp:42-92 | setup returns true exactly when the base succeeded, a present name is a supported one, and a complete triple read without a name is valid |
| `ScanSetup.UnknownModelExample` | loam_ros/src/wrappers/MultiScanRegistration.cpp:62-64 | the name "bad-model" fails setup with an invalid-model error |
| `ScanSetup.InvertedRangeExample` | loam_ros/src/wrappers/MultiScanRegistration.cpp:71-73 | min 10, max 5 fails setup with the range error |
| `WarmUp.Handle` | loam_ros/src/wrappers/MultiScanRegistration.cpp:98-107 | a frame is skipped exactly when the counter is positive, and then the counter drops by one; otherwise it is dispatched with its own stamp and the counter stays zero |
| `WarmUp.ReplayClosedForm` | loam_ros/src/wrappers/MultiScanRegistration.cpp:96-108 | after n frames from counter k the counter is k - min(k, n), never negative, and exactly the frames after the first k were processed, in order, with their own stamps |
| `WarmUp.WarmUpOutcome` | loam_ros/src/wrappers/MultiScanRegistration.cpp:98-101 | from counter k, call i is skipped exactly when i < k and otherwise dispatches its own frame |
| `WarmUp.ActiveAfterWarmUp` | loam_ros/src/wrappers/MultiScanRegistration.cpp:98-107 | after k calls from counter k the counter is zero and every later frame is processed |
| `Registration.MultiScanRegistration.Setup` | loam_ros/src/wrappers/MultiScanRegistration.cpp:42-92 | returns true exactly when the decision chain succeeds, and then subscribes and installs the chosen mapper; on failure the mapper and the subscription are unchanged; the lidar model field is overwritten only when the name is fetched |
| `Registration.MultiScanRegistration.HandleCloudMessage` | loam_ros/src/wrappers/MultiScanRegistration.cpp:96-108 | called only once subscribed; with a positive counter, decrements it and processes nothing; at zero, processes the frame with its stamp and keeps the counter zero; the frame is skipped exactly while at most the initial delay frames have arrived, and the processed stamps are always the received ones after the first initial-delay frames |

## Left out

- ROS parameter lookups are modelled as pre-fetched optional values. The short-circuit of the three triple lookups has no observable effect here.
- `ROS_INFO` and `ROS_ERROR` logging is left out. The error kinds in `SetupError` stand in for the messages.
- The subscription is a single flag. `HandleCloudMessage` requires it, because the callback is only reachable after the subscribe at lines 88-89, so no frame is handled after a failed setup. Its queue depth of 2 and the transport's drop behaviour are middleware and are left out.
- `ScanRegistration::setup` is not part of this model. Its result is the `baseOk` parameter, and where `_systemDelay` comes from is not modelled: the constructor takes the initial counter.
- The header that declares `_scanMapper` is not part of this model. The initial mapper is taken to be the VLP-16 preset, which is the default the log at line 84 names.
- `MultiScanMapper` is not part of this model. Presets and `set(...)` are opaque tags, so no ring-assignment property is claimed.
- `pcl::fromROSMsg` point-cloud conversion is a foreign call and is left out. `process(...)` is an opaque sink that records the stamp of each dispatched frame.
- Vertical angles are `real` and the ring count is an unbounded `int`. Float rounding, NaN and the 32-bit range of `int` are not modelled. Under IEEE comparison a NaN angle makes `min >= max` false and would pass the range check.
