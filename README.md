# RPLidar acquisition loggers, modelled in Dafny

The repository holds two command-line programs for a SLAMTEC RPLidar. Both
are written as one long `main`:

- `app/data_logger/main.cpp` parses the command line, creates the SDK
  driver and negotiates a connection over a serial port or UDP. It then
  checks the device's health and starts a scan. Its loop polls
  `grabScanDataHq`, filters the samples of every batch through a decimation
  flag and a per-degree rate limiter, and appends the accepted samples to a
  CSV file until SIGINT.
- `app/visual_logger/main.cpp` does the same on global state. It also keeps
  the accepted points of the current batch in a vertex buffer (`pointData`),
  draws that buffer once per batch, and runs until SIGINT or until the
  window is closed.

This project models that core and proves what it guarantees.

| file | module | what it holds |
|---|---|---|
| `lidar_types.dfy` | `LidarTypes` | Fixed-width integer types, samples, records and CSV lines. Also the driver and environment, seen as oracles: which channel connects, whether `getDeviceInfo` answers, the health reply, the polls and stop flags of each loop iteration, and whether OpenGL starts, the driver allocates and the file opens. Finally, the observable actions of a run. |
| `scan_filter.dfy` | `ScanFilter` | The reference definition of the per-sample filter, as pure functions over `FilterState`: `Step` for one sample, `Run` and `Batch` for a batch, `AfterPoll` for one poll and `Session` for many. It is parametrised by `countWraps`, the one place where the two programs differ. It also holds the lemmas about decimation, the per-degree cap, the wrap-around reset and scan numbers. |
| `cli.dfy` | `Cli` | Argument dispatch and the C library's `strtoul`. |
| `negotiation.dfy` | `Negotiation` | The health decision, connection negotiation (a method with the baud-rate loop) and the connection attempt that `main` makes. |
| `platform.dfy` | `Platform` | The POSIX `delay` helper, as a loop of `usleep` calls. |
| `data_logger.dfy` | `DataLogger` | `main`'s scanning state as class `Logger`, whose loop methods are proved against `ScanFilter`. Also `main` itself (`RunLogger`) and the order of its actions (`Trace`). |
| `visual_logger.dfy` | `VisualLogger` | The visual logger's globals as class `Visualizer`, with the vertex buffer and the frames drawn. Also `main` (`RunVisual`) and its action order. |

Integers replace the floating-point values exactly:
- `q14 * 90` is below 2^24 and 16384 is a power of two, so the degree of a
  sample is `q14 * 90 / 16384`.
- `current_angle < last_angle` is `q14 < lastQ14`, with 0 before the first
  sample.
- `current_distance > 0` is `dist_q2 > 0`.

The model follows the code as written. In particular:
- The wrap-around reset runs after the acceptance decision. A sample that
  regresses and is accepted therefore loses its own increment
  (`ScanFilter.Step`, `ScanFilter.WrapExample`).
- For the same reason, the cap of 5 records per degree is counted from the
  sample after a regression. Counted from the regressing sample itself, one
  batch can write 6 records for its degree. In the visual logger all six
  carry the same scan number (`ScanFilter.SixthRecord`,
  `ScanFilter.SixthRecordSameScan`).
- The data logger also counts a scan at every angle regression. The visual
  logger counts only successful grabs, so all records of one batch share one
  scan number.
- Choosing serial always sets `useArgcBaudrate`, so no command line reaches
  the baud-rate probe (`Cli.ProbeUnreachable`). The probe is still modelled
  (`Negotiation.Negotiate`). When `getDeviceInfo` fails on its first
  candidate, the driver is deleted and set to NULL, and the next iteration
  calls `connect` through that null pointer. The model reports this outcome
  as `NullDriverCall`.
- Resource handling in the code is incomplete:
  - No channel object is ever deleted. The driver is deleted early only
    when `getDeviceInfo` fails after a successful `connect`.
  - When the output file does not open, `main` jumps to `on_finished`
    without calling `stop()`.
  - In the visual logger, every early failure calls `cleanupOpenGL`, and
    `on_finished` calls it again. `window` is never reset, so the second
    call repeats the teardown.
  - Every path after driver creation returns 0, including failed
    connections and an unhealthy device.

## Model

| member | source | states |
|---|---|---|
| LidarTypes.Degree | app/data_logger/main.cpp:271-277 | The integer degree of a fixed-point angle is always a valid bar index, and it is the truncated quotient of `q14 * 90` by 16384. |
| ScanFilter.Step | app/data_logger/main.cpp:270-299 | One sample: a record, carrying the current scan count, is written iff distance > 0, not skipping, degree in range and its counter below 5. The decimation flag flips whatever the decision. The last angle becomes this sample's. A regression clears all 360 counters and, with `countWraps`, adds one scan. Otherwise only the accepted sample's own counter rises, by one. Counters stay in [0, 5]. |
| ScanFilter.Run | app/data_logger/main.cpp:270-299 | Over a batch: the flag ends flipped once per sample examined. The scan count rises by the number of regressions when wraps are counted, and not at all otherwise. Counters stay in [0, 5], and at most one record is written per sample. |
| ScanFilter.Batch | app/data_logger/main.cpp:266-299 | A successful grab raises the scan count by one, plus the batch's regressions when wraps are counted. |
| ScanFilter.AfterPoll | app/data_logger/main.cpp:264-303 | A failed grab changes nothing. A successful one raises the scan count as `Batch` does. |
| ScanFilter.Session | app/visual_logger/main.cpp:442-492 | Across loop iterations the counters stay valid. Without wrap counting the scan count rises by exactly the number of successful grabs; with it, by at least that many. |
| ScanFilter.RecordsComeFromSamples | app/data_logger/main.cpp:275-286 | Every record written comes from a sample of the batch with positive distance and an in-range degree. It carries that sample's angle, distance and quality, and the time read for it. |
| ScanFilter.DecimationBound | app/data_logger/main.cpp:275-291 | Of N consecutive samples at most ceil(N/2) are written, and at most floor(N/2) when the first is skipped. |
| ScanFilter.SessionDecimationBound | app/data_logger/main.cpp:262-299 | The flag persists across batches: after a whole session it reflects the parity of all samples examined, and the records written are at most half of them, rounded up. |
| ScanFilter.CountsTrackRecords | app/data_logger/main.cpp:280-287 | Without a regression, every counter grows by exactly the number of records written for its degree, and no other counter moves. |
| ScanFilter.RevolutionCap | app/data_logger/main.cpp:278-288 | Between resets, at most `MAX_POINTS_PER_DEGREE - counts[d]` records are written for degree d. |
| ScanFilter.RegressionClearsCounts | app/data_logger/main.cpp:294-298 | A sample whose angle is below its predecessor's leaves every counter at zero. |
| ScanFilter.SessionCountsTrack | app/data_logger/main.cpp:262-299 | Across loop iterations without a regression, every counter grows by exactly the number of records written for its degree, and the last angle is that of the last sample grabbed. |
| ScanFilter.SessionWithoutSamples | app/data_logger/main.cpp:262-303 | Loop iterations whose grabs fail or return no samples write nothing. |
| ScanFilter.SessionRevolutionCap | app/data_logger/main.cpp:262-299 | From any point in a batch, across the later grabs of the session and up to and including the next regressing sample, at most `MAX_POINTS_PER_DEGREE - counts[d]` records are written for degree d. |
| ScanFilter.RevolutionAfterReset | app/data_logger/main.cpp:262-299 | After a regressing sample, the rest of its batch and the later grabs, up to and including the next regressing sample, write at most 5 records per degree. |
| ScanFilter.PairsRun | app/data_logger/main.cpp:275-291 | n pairs of one sample at a non-decreasing angle, from an undecimated state with room under the cap, write n records for its degree and raise its counter by n. |
| ScanFilter.SixthRecord | app/data_logger/main.cpp:275-298 | A sample that regresses and is accepted, then a decimated sample of the same degree and five more pairs of it: the batch writes 6 records for that degree, one more than the cap, because the regressing sample counts against the old counter before the reset. |
| ScanFilter.SixthRecordAtReset | app/data_logger/main.cpp:278-298 | An instance from concrete values: with the previous angle at 100 (about 0.55 degrees), samples at q14 50 and then 60 write 6 records for degree 0 in one batch. |
| ScanFilter.SixthRecordSameScan | app/visual_logger/main.cpp:446-482 | Without wrap counting, those six records all carry the scan number of their batch. |
| ScanFilter.WrapDetectedOnce | app/data_logger/main.cpp:294-297 | Angles 10, 20, 5 and 15 degrees regress exactly once. |
| ScanFilter.WrapExample | app/data_logger/main.cpp:266-299 | From the initial state, a batch at 10, 20, 5 and 15 degrees writes the samples at 10 and 5 degrees, both with scan number 1; the other two are decimated. All counters end at zero, so nothing counted before the reset carries over. The scan count ends at 2 with wrap counting and at 1 without. |
| ScanFilter.RunScanNumbers | app/data_logger/main.cpp:286-296 | Within a batch, scan numbers are non-decreasing and lie between the scan count before and after. Without wrap counting they all equal the count at the start. |
| ScanFilter.BatchScanNumbers | app/visual_logger/main.cpp:446-466 | The records of one successful grab carry numbers from the incremented count on. In the visual logger they all carry exactly the batch's count. |
| ScanFilter.SessionScanNumbers | app/data_logger/main.cpp:268-296 | Over a session the scan count never decreases, and the scan numbers in the file never go down. |
| Cli.Strtoul | app/data_logger/main.cpp:124-126 | The value is an `unsigned long`: it lies in [0, ULONG_MAX]. |
| Cli.ToU32 | app/data_logger/main.cpp:124-126 | Storing into `sl_u32` keeps values below 2^32 unchanged. |
| Cli.ParsesDecimal | app/data_logger/main.cpp:124-126 | A baud rate or port written in decimal reads back as itself. |
| Cli.ParseArgs | app/data_logger/main.cpp:116-152 | The result is -1 iff argc < 4, argv[1] is not `--channel`, or argv[2] is none of `-s`, `--serial`, `-u`, `--udp`. Otherwise serial iff `-s`/`--serial`, and `useArgcBaudrate` iff serial. The port or address is argv[3]. The second parameter is 0 when argc == 4 and `strtoul(argv[4])` otherwise. The file is argv[5] or the time-stamped default. |
| Cli.ProbeUnreachable | app/data_logger/main.cpp:137-140 | Every command line that selects serial selects the explicit-baud path, so the baud-rate probe at line 188 is never taken. |
| Cli.ExplicitBaud | app/visual_logger/main.cpp:303-317 | A serial command line with a decimal baud rate connects at exactly that rate. |
| Negotiation.CheckHealth | app/data_logger/main.cpp:54-72 | The device is healthy iff `getHealth` succeeded and the status is not `SL_LIDAR_STATUS_ERROR`. |
| Negotiation.ChannelFor | app/visual_logger/main.cpp:356-389 | Serial selects a serial-port channel and UDP a UDP channel. |
| Negotiation.Negotiate | app/data_logger/main.cpp:174-218 | `connectSuccess` holds iff some attempt had both `connect` and `getDeviceInfo` succeed, and negotiation stops at the first such attempt. The driver is deleted iff a `connect` succeeded and `getDeviceInfo` failed. Serial with an explicit baud makes exactly one attempt at that baud, and UDP exactly one attempt. The probe tries 115200 then 256000, in order, never more. It fails only after both, and crashes on a null driver iff the first candidate connected without answering. |
| Negotiation.Attach | app/visual_logger/main.cpp:356-409 | The connection attempt `main` makes is the single channel the options select: connected iff it answers both calls. The driver survives unless `getDeviceInfo` failed, and the actions are create, connect, then delete on failure. |
| Platform.Delay | app/data_logger/main.cpp:30-37 | `delay(ms)` sleeps exactly ms milliseconds in total, in ceil(ms/1000) `usleep` calls of at most one second each. |
| DataLogger.Logger.constructor | app/data_logger/main.cpp:103-111 | The scanning state starts with zero counters, no skip, previous angle 0 and scan count 0. |
| DataLogger.Logger.WriteHeader | app/data_logger/main.cpp:258-259 | Opening the file writes exactly the header line and changes no scanning state. |
| DataLogger.Logger.ClearCounts | app/data_logger/main.cpp:295 | All 360 counters become zero. |
| DataLogger.Logger.ProcessSample | app/data_logger/main.cpp:270-299 | The in-place loop body on the array leaves the state `Step` gives, with `countWraps`, and appends exactly that step's records to the file. |
| DataLogger.Logger.ProcessBatch | app/data_logger/main.cpp:266-299 | Processing a grabbed batch sample by sample leaves the state of `Batch` and appends its records, in order. |
| DataLogger.Logger.HandlePoll | app/data_logger/main.cpp:264-303 | One poll leaves the state of `AfterPoll` and appends its records. |
| DataLogger.Logger.Acquire | app/data_logger/main.cpp:262-310 | The loop runs up to and including the first iteration that sees SIGINT. It leaves the state of `Session` over exactly those iterations, and the file gains exactly the session's records. |
| DataLogger.Iterations | app/data_logger/main.cpp:305-307 | The loop stops at the first iteration whose SIGINT check succeeds, and at no earlier one. |
| DataLogger.Acquisition | app/data_logger/main.cpp:252-310 | The file is the header followed by one line per accepted sample of the session, in the column order timestamp, angle, distance, quality, scan number. |
| DataLogger.TraceShape | app/data_logger/main.cpp:166-321 | Every run that creates a driver connects exactly once, over the selected channel, and deletes the driver exactly once, as its last action. Scanning starts iff the channel answers and the device is healthy. `stop()` runs iff the file also opened. A normal exit ends with stop, close, delete. |
| DataLogger.Finish | app/data_logger/main.cpp:220-321 | After the connection attempt, the actions and the file follow the path taken: not connected, unhealthy, file not opened, or a full session. |
| DataLogger.Drive | app/data_logger/main.cpp:174-321 | From the driver's creation on, the actions are `Trace`. The file holds the session iff the channel answered, the device was healthy and the file opened; otherwise it is empty. |
| DataLogger.RunLogger | app/data_logger/main.cpp:80-322 | The exit status is -1 iff the command line is malformed, -2 iff the driver cannot be allocated, and 0 otherwise. Only the 0 paths act, as `Trace` says. The file holds the header and every accepted record iff scanning ran to a normal exit. |
| VisualLogger.PointOf | app/visual_logger/main.cpp:469-471 | An accepted record pushes two floats: the cosine term, then the sine term, of its own angle and distance. |
| VisualLogger.Points | app/visual_logger/main.cpp:451-471 | The vertex buffer holds exactly twice the number of records, with pair i the point of record i. |
| VisualLogger.PointsAppend | app/visual_logger/main.cpp:469-471 | Pushing points for more records appends to the buffer. |
| VisualLogger.Frames | app/visual_logger/main.cpp:446-486 | A session draws one frame per successful grab. |
| VisualLogger.FramesShowRecords | app/visual_logger/main.cpp:446-486 | What is drawn is what is written: the frames put end to end are exactly the points of the records the session writes to the file. |
| VisualLogger.Visualizer.constructor | app/visual_logger/main.cpp:72-86 | The globals start at their static values, with an empty buffer and nothing drawn. |
| VisualLogger.Visualizer.WriteHeader | app/visual_logger/main.cpp:440 | Opening the file writes exactly the header line; the scanning state, the buffer and the frames do not change. |
| VisualLogger.Visualizer.ClearCounts | app/visual_logger/main.cpp:480 | All 360 counters become zero. |
| VisualLogger.Visualizer.Emit | app/visual_logger/main.cpp:462-471 | An accepted record is written to the file and its point pushed into the buffer; nothing else changes. |
| VisualLogger.Visualizer.ProcessSample | app/visual_logger/main.cpp:453-483 | The loop body leaves the state `Step` gives without wrap counting. It appends that step's records to the file and their points to the buffer, and draws nothing. |
| VisualLogger.Visualizer.ProcessBatch | app/visual_logger/main.cpp:446-483 | After a grabbed batch the state is `Batch`'s and the file gains its records. The buffer, cleared first, holds exactly the points of this batch's records, so its length is twice their number. |
| VisualLogger.Visualizer.Render | app/visual_logger/main.cpp:186-222 | `renderFrame` draws the current buffer and changes nothing else. |
| VisualLogger.Visualizer.HandlePoll | app/visual_logger/main.cpp:444-489 | One poll leaves the state of `AfterPoll`. It appends its records and draws one frame with exactly their points iff the grab succeeded. The buffer then holds this batch's points; after a failed grab it keeps the previous batch's. |
| VisualLogger.Visualizer.Acquire | app/visual_logger/main.cpp:442-492 | The loop runs until the first iteration that sees SIGINT or the window's close request. It leaves the state of `Session` over the iterations before it, and the file and frames gain exactly that session's records and frames. The buffer holds the last frame drawn, or its old contents when no grab succeeded. |
| VisualLogger.Iterations | app/visual_logger/main.cpp:442 | The loop exits only at an iteration where `shouldClose` or the window's close request holds, and at the first one. |
| VisualLogger.Acquisition | app/visual_logger/main.cpp:433-492 | The file is the header and the session's records; the frames are the session's frames. |
| VisualLogger.TraceShape | app/visual_logger/main.cpp:344-503 | Every run that creates a driver has started OpenGL and connects exactly once, over the selected channel. A normal exit ends with stop, close, OpenGL cleanup, delete. |
| VisualLogger.TraceScanning | app/visual_logger/main.cpp:402-494 | Scanning starts iff the channel answers and the device is healthy, and `stop()` runs iff the file also opened. |
| VisualLogger.TraceTeardown | app/visual_logger/main.cpp:402-503 | The driver is deleted exactly once: right after a failed `getDeviceInfo`, otherwise last. `cleanupOpenGL` runs once, just before the deletion, after a normal exit. After any early failure it runs twice in a row. |
| VisualLogger.Finish | app/visual_logger/main.cpp:402-503 | After the connection attempt, the actions, the file and the frames follow the path taken. |
| VisualLogger.Drive | app/visual_logger/main.cpp:348-503 | Once OpenGL is up, the actions are `Trace`. The file and frames hold the session iff the channel answered, the device was healthy and the file opened; otherwise they are empty. |
| VisualLogger.RunVisual | app/visual_logger/main.cpp:274-505 | The exit status is -1 iff the command line is malformed or OpenGL fails to start, with no action. It is -2 iff the driver cannot be allocated, after starting and cleaning up OpenGL, and 0 otherwise, after the actions of `Trace`. File and frames are the session's iff scanning ran to a normal exit. |

## Left out

- SDK internals are oracles: `createLidarDriver`, `connect`, `getDeviceInfo`, `getHealth`, `startScan`, `grabScanDataHq` and `ascendScanData`. A batch is handed over already in ascending angle order. `setMotorSpeed` and `stop` have no modelled effect beyond the `ScanStopped` action.
- OpenGL, GLFW and GLEW are not modelled:
  - The `initOpenGL` failures (GLFW, window, GLEW, shader link) are one flag, `glReady`.
  - `cleanupOpenGL` is an action.
  - `renderFrame` records the buffer it draws.
  - The ring vertices and shader code are left out.
- `VisualLogger.PointOf`: the cosine and sine values are kept as symbolic terms, because they are floating-point trigonometry. The count and order of the floats are modelled.
- Text formatting is left out: records are integer tuples. The `ofstream` rendering of the float angle (degrees) and distance (millimetres) is not modelled.
- Clocks and time are parameters:
  - The default file name built by `time`, `localtime` and `strftime` is passed in.
  - The `time()` value of each written sample is a per-sample clock.
- Asynchronous SIGINT delivery and `glfwWindowShouldClose` are per-iteration flags, read where the loops read them.
- `DataLogger.Logger.Acquire`, `DataLogger.RunLogger`, `VisualLogger.Visualizer.Acquire` and `VisualLogger.RunVisual` require a finite script of loop iterations that contains one seeing a stop flag. A run that never stops is not modelled.
- `printf` and `fprintf` diagnostics are left out, including the serial number and firmware version.
- `ScanFilter.RevolutionAfterReset`: the cap is counted from the sample after the regressing one, not from the regressing sample. The reset comes after the acceptance decision, so the regressing sample can be a sixth record for its degree. In the visual logger one batch, with one scan number, can then hold six records for that degree (`ScanFilter.SixthRecord`, `ScanFilter.SixthRecordSameScan`).
- `ScanFilter.Step`: `scan_count` is an unbounded integer. The source's `int` overflow after 2^31 - 1 increments is not modelled.
- `Cli.Strtoul` assumes an LP64 `unsigned long` of 64 bits and leaves out `errno`.
- The 8192-node buffer limit on a batch is not modelled: batches are sequences of any length.
- The default serial port (data logger lines 154-164, visual logger lines 332-342) is unreachable: argv[3] always exists once argc >= 4. It is not modelled.
- The Windows `Sleep` form of `delay` is left out; only the POSIX loop is modelled.
- Channel objects are created and never deleted in the source. The model does not track their lifetime.
- The OpenGL calls a second `cleanupOpenGL` makes on an already destroyed window are only counted as a second `GLCleanedUp` action. Their effect is not modelled.
