# Fractal generator core, modelled in Dafny

This project models the two sequential cores of a fractal image and video generator written in C.

- **The fractal raster engine** (`fractal/fractal.c`).
  - A job controller with a busy flag admits one photo or video job at a time.
  - `mb_prepare` takes a snapshot of the configuration: Mandelbrot or Julia mode, centre, seed, zoom and image size. It keeps a palette of `max_iterations + 1` colours and rebuilds it only when the iteration count changes.
  - A photo job allocates a `width * height * 3` RGB buffer and runs the row-partitioned workers over it. Worker `i` of `N` draws rows `i, i + N, ...`. Each pixel's colour comes from an escape-time evaluator. The file is written, and `on_save` reports the result.
  - A video job draws frames in a loop and hands each to the encode sequencer. After each frame it reports progress and multiplies the zoom. It stops when the user interface clears the stop flag.
- **The audio/video encode sequencer** (`video/video.c`).
  - `video_send_frame` keeps two counters, `video_pts` in frames and `audio_pts` in samples.
  - Before every video frame it emits test-tone audio frames for as long as the audio time lies before the video time. It then stamps the video frame and returns the new video counter.
  - With no image it flushes audio, then video, and then finalises the file.
  - `send_frame` drives one encoder and writes the packets the encoder releases to the muxer.

The C file-level statics become the fields of `Fractal.Engine`, and `VideoCtx` becomes `Video.VideoCtx`. Both are classes whose methods update their fields. The loops of the source stay loops, with their invariants:

- the workers' nested row and column loops over an `array<Byte>`;
- the palette loop;
- the evaluators' iteration loops;
- the frame loop;
- the audio catch-up loop;
- the packet-drain loop of `send_frame`;
- the buffer fill of `fill_test_audio_data`.

The workers run one after the other. Each method is proved against a specification function, such as `Fractal.Image`, `Escape.EscapeCount`, `Palette.Table`, `Codec.SendOutcome` or `Video.ToneBuffer`, or against a preserved invariant (`Timestamps.ClockInv`, `Video.Accounts`).

The model replaces outside inputs with parameters:

- Callbacks become a log of `Event`s: `on_progress(f)` is logged as `Progress(f)` and `on_save(ok)` as `Saved(ok)`.
- Each library call's success is one of the `Op`s in an environment set: a call fails exactly when its operation is in the set given for that call. The receives and writes within one `send_frame` call are numbered, so any of them can be the one that fails.
- The encoder's frame size and look-ahead come from a `Library` value.
- So do the sine of the test tone and the result of `png_image_write_to_file`.

Modules:

- `Wrappers`: holds `Option`.
- `Arith`: integer facts.
- `Rows`: the row partition and the buffer layout.
- `Palette`: the colour formula and its table.
- `Escape`: the evaluators.
- `Fractal`: the engine.
- `Codec`: the abstract encoder and muxer.
- `Timestamps`: timestamp arithmetic and the clock invariant.
- `Video`: the sequencer.
- `Scenarios`: whole jobs on a fresh engine.

## Model

| member | source | states |
|---|---|---|
| `Rows.OwnedIffResidue` | fractal/fractal.c:268 | worker `i` of `n` visits row `r` exactly when `r mod n == i` |
| `Rows.WorkersPartitionRows` | fractal/fractal.c:112-116 | every row has exactly one owner among workers `0 .. n-1` (the one of its residue) |
| `Rows.NotOwnedBeforeNext` | fractal/fractal.c:268 | between two consecutive rows of a worker no row belongs to it |
| `Rows.OwnedAfterSteps` | fractal/fractal.c:268 | the row reached after `k` steps of `row += row_step` is the worker's own |
| `Rows.LoopExitCount` | fractal/fractal.c:268 | when the row loop exits after `k` rows, `k` is the worker's row count |
| `Rows.RowCountShift` | fractal/fractal.c:268 | removing `n` rows from the bottom removes one row from each worker |
| `Rows.RowCountSumShift` | fractal/fractal.c:112-116 | the same for the sum of the first `k` workers' counts |
| `Rows.RowCountSumShort` | fractal/fractal.c:112-116 | with fewer rows than workers, the first `k` workers hold `min(k, height)` rows |
| `Rows.RowCountsCoverHeight` | fractal/fractal.c:283-286 | the row counts of all `n` workers add up to `height`, so the progress counter ends at `height` |
| `Rows.PixelIndexLayout` | fractal/fractal.c:278-281 | write index `3*(row*width+col)+k` lies in `[0, width*height*3)` and maps back to `(row, col)` and channel `k` |
| `Rows.RowOfInImage` | fractal/fractal.c:109 | every byte of the buffer belongs to a pixel inside the image |
| `Rows.ByteOfPixel` | fractal/fractal.c:278 | every byte lies among the three bytes of the pixel it maps to |
| `Palette.LevelsFitInByte` | fractal/fractal.c:360-362 | for `t` in `[0, 1]` the three channel formulas stay in `[0, 256)`, so the `png_byte` cast never wraps |
| `Palette.CubicBound` | fractal/fractal.c:360 | `(1-t) t^3 <= 27/256` on `[0, 1]`, which bounds the red and blue channels |
| `Palette.SquareBound` | fractal/fractal.c:361 | `(1-t)^2 t^2 <= 1/16` on `[0, 1]`, which bounds the green channel |
| `Palette.Entry` | fractal/fractal.c:357-362 | entry `i` of the table for `max`; entries `0` and `max` are black |
| `Palette.Table` | fractal/fractal.c:353-363 | the rebuilt palette has `max + 1` entries, and its first and last are black |
| `Escape.EscapeCount` | fractal/fractal.c:298-305 | the iteration count stays within the cap; a start point outside radius 2 gives 0; any other gives at least 1 |
| `Escape.EscapeCountIsFirstEscape` | fractal/fractal.c:298-305 | the count `n` is the first escape: orbit points `0 .. n-1` stay within radius 2, and point `n` escapes (or `n` is the cap) |
| `Escape.FirstEscapeIsEscapeCount` | fractal/fractal.c:298-305 | the converse: any index with that first-escape property is the count |
| `Escape.MandelbrotIndex` | fractal/fractal.c:293-307 | the Mandelbrot palette index lies in `[0, max_iterations]` |
| `Escape.JuliaIndex` | fractal/fractal.c:310-324 | the Julia palette index lies in `[0, max_iterations]` |
| `Escape.FirstStepEscape` | fractal/fractal.c:298-301 | both evaluators return index 0 for a start point with `x^2 + y^2 > 4` |
| `Escape.MbGetColorFromPos` | fractal/fractal.c:293-308 | the loop adding `(xc, yc)` each step returns `palette[MandelbrotIndex]` |
| `Escape.JuliaGetColorFromPos` | fractal/fractal.c:310-325 | the loop adding the seed `(x0, y0)` each step returns `palette[JuliaIndex]` |
| `Fractal.Image` | fractal/fractal.c:278-281 | the finished image is `width * height * 3` bytes |
| `Fractal.ImageHoldsPixel` | fractal/fractal.c:278-281 | the image bytes at index `3*(row*width+col)` are the pixel colour's red, green and blue |
| `Fractal.PaintPixel` | fractal/fractal.c:278-281 | writing one pixel's three bytes extends the drawn part of the row by one pixel and changes no other byte |
| `Fractal.PaintedRowStep` | fractal/fractal.c:268-288 | a finished row moves the worker's drawn rows on to its next row |
| `Fractal.PaintedRowsDone` | fractal/fractal.c:268 | once past the last row, the worker has drawn all of its rows |
| `Fractal.PaintedWorkerStep` | fractal/fractal.c:112-116 | worker `k` adds exactly the rows of residue `k` to those of workers `0 .. k-1` |
| `Fractal.PaintedWorkersDone` | fractal/fractal.c:131-134 | after all `n` workers the buffer equals the image |
| `Fractal.Engine.Init` | fractal/fractal.c:9-19 | at process start the statics are zero: not busy, no palette, no buffer, nothing reported |
| `Fractal.Engine.ColorAt` | fractal/fractal.c:271-277 | the colour of a pixel is the evaluator of the mode at its plane point |
| `Fractal.Engine.PaintRow` | fractal/fractal.c:269-282 | one row's column loop draws that row's bytes and leaves every other byte unchanged |
| `Fractal.Engine.FractalThread` | fractal/fractal.c:259-291 | worker `(start, step)` draws exactly its own rows, changes no other byte, and adds its row count to the counter when counting is on |
| `Fractal.Engine.RunWorkers` | fractal/fractal.c:112-134 | the workers together turn the buffer into the image, and the counter moves on by `height` when counting is on |
| `Fractal.Engine.RebuildPalette` | fractal/fractal.c:350-363 | the palette loop builds the table for `max_iterations` |
| `Fractal.Engine.SetView` | fractal/fractal.c:330-348 | Julia mode takes seed `(x, y)`, centre `(julia_x, julia_y)` and zoom `julia_zoom*height/2`; Mandelbrot mode takes centre `(x, y)` and zoom `zoom*height/2` and keeps the seed; both take the size |
| `Fractal.Engine.Prepare` | fractal/fractal.c:327-365 | the view follows the configuration; the palette is the table for the new count; it is rebuilt exactly when the count differs from the cached one; the job state is untouched |
| `Fractal.Engine.VideoStop` | fractal/fractal.c:60-63 | returns `MB_OK` and clears the stop flag, whatever its value was |
| `Fractal.Engine.AdmitPhoto` | fractal/fractal.c:65-81 | `MB_ERROR` exactly when config, filename or `on_save` is missing; `MB_EXEC` exactly when they are present and a job runs; both change nothing; otherwise the engine turns busy and shows the configuration |
| `Fractal.Engine.BeginPhoto` | fractal/fractal.c:65-85 | the admission, followed by progress 0 when there is a progress callback (corrected version) |
| `Fractal.Engine.BeginPhotoAsWritten` | fractal/fractal.c:65-85 | as written: an accepted call without a progress callback calls through NULL |
| `Fractal.Engine.AllocateImage` | fractal/fractal.c:104-109 | the buffer is fresh and holds `width * height * 3` bytes |
| `Fractal.Engine.DrawImage` | fractal/fractal.c:104-134 | a fresh buffer is allocated and filled with the image |
| `Fractal.Engine.PhotoThread` | fractal/fractal.c:87-152 | counting is on exactly when there is a progress callback, starting from 0 and ending at `height`; the buffer holds the image; the engine is released; `on_save` gets the write result |
| `Fractal.Engine.BeginVideo` | fractal/fractal.c:154-179 | `MB_ERROR` and `MB_EXEC` exactly as for photos, with video config and `on_progress` also required; on acceptance the engine is busy, the zoom is `zoom_start * height`, the stop flag is set and progress 0 is reported |
| `Fractal.Engine.RenderAndSubmit` | fractal/fractal.c:217-233 | the workers draw the frame and it is submitted; a non-negative result is the video counter, moved on by one; an image without columns fails the stride check; with a column, every library call succeeding and neither encoder flushed, the submission succeeds |
| `Fractal.Engine.ReportAndZoom` | fractal/fractal.c:239-240 | progress reports `pts / framerate`, and the zoom is multiplied by the step |
| `Fractal.Engine.NextFrame` | fractal/fractal.c:217-240 | one pass of the frame loop keeps the context consistent; on success it reports frame `n + 1`, applies the zoom step once more, and leaves both encoders accepting input; with a column and a clean frame environment it succeeds |
| `Fractal.Engine.EncodeFrames` | fractal/fractal.c:216-241 | the loop reports `1/framerate, 2/framerate, ...` for the submitted frames and leaves the zoom at `zoom * step^frames`; a failure ends it early; without a failure it submits exactly the frames before the stop request, and the video counter equals their number; when every submission's library calls succeed and the image has a column, it does not fail |
| `Fractal.Engine.RunVideo` | fractal/fractal.c:198-243 | NULL from `video_ctx_new` exactly when a set-up call fails or the frame rate is not positive; then the frame loop runs; a completed video holds video timestamps `0 .. frames-1` and audio timestamps `0, frameSize, ...`, all written; a job whose every library call succeeds completes |
| `Fractal.Engine.VideoThread` | fractal/fractal.c:181-257 | corrected version: every path that calls `on_save` releases the engine; the events are the progress reports followed by `on_save`'s result; a job whose every library call succeeds completes |
| `Fractal.Engine.VideoThreadAsWritten` | fractal/fractal.c:181-257 | as written: only a completed video releases the engine; after a failed start or a failed frame it stays busy; a job whose every library call succeeds completes |
| `Codec.Ready` | video/video.c:381-384 | the encoder releases at most its queue, all of it once draining, and otherwise keeps at most its look-ahead |
| `Codec.Accept` | video/video.c:375 | `avcodec_send_frame` queues the frame, or starts draining on NULL |
| `Codec.DrainStopFrom` | video/video.c:380-397 | the drain loop ends at the first failing receive or write, or at the receive after the last ready packet; every receive and write before that point succeeds |
| `Codec.DrainOutcome` | video/video.c:380-399 | a failing receive `i` leaves `i` packets written and the rest queued; a failing write `i` also takes packet `i` from the encoder and loses it; otherwise all ready packets are written and EAGAIN or EOF is returned |
| `Codec.Tagged` | video/video.c:389-390 | every written packet carries its stream, in order |
| `Codec.SendOutcome` | video/video.c:373-400 | -1 exactly when the send is rejected or one of the receives or writes fails; a rejected send changes nothing; after a failing receive or write the packets before it stay written; otherwise every released packet is written in order and the final EAGAIN or EOF is returned |
| `Codec.SendConservesFrames` | video/video.c:381-397 | on success, the written packets followed by the queue are the old queue plus the frame: nothing lost or duplicated |
| `Codec.Pts` | video/video.c:389 | the timestamps of a packet list, in order |
| `Timestamps.CompareTs` | video/video.c:100-101 | `av_compare_ts` is the sign of the rational comparison `a*an/ad` against `b*bn/bd` |
| `Timestamps.RealCrossMultiply` | video/video.c:100-101 | for positive denominators the rational comparison is integer cross-multiplication |
| `Timestamps.AudioBehindVideo` | video/video.c:100-101 | the loop condition holds exactly when `audio_pts * framerate < video_pts * 44100` |
| `Timestamps.Iota` | video/video.c:130 | video timestamps `0 .. n-1` |
| `Timestamps.AudioSteps` | video/video.c:115-116 | audio timestamps `from, from + step, ...` |
| `Timestamps.FilterAppend` | video/video.c:392 | selecting one stream from a concatenation selects from each part |
| `Timestamps.FilterTagged` | video/video.c:389-390 | selecting a stream from packets tagged with it gives their timestamps back; the other stream gives none |
| `Timestamps.ClockInvInitially` | video/video.c:179 | both counters at 0 with nothing stamped satisfy the clock invariant |
| `Timestamps.StampAudio` | video/video.c:115-116 | stamping an audio frame while audio is behind keeps the timestamps in time order and the audio counter a multiple of the frame size |
| `Timestamps.StampVideo` | video/video.c:130 | stamping the video frame once audio has caught up keeps the time order, and video timestamps `0, 1, ...` |
| `Timestamps.AudioRunStart` | video/video.c:100 | the catch-up run starts empty |
| `Timestamps.AudioRunStep` | video/video.c:100-119 | each pass stamps the old audio counter, which starts strictly before the waiting video frame, and advances it by one frame |
| `Timestamps.FrameStepIntro` | video/video.c:100-130 | a finished catch-up run followed by the video frame is one frame step: audio frames before the video frame, then the video frame |
| `Timestamps.MonotoneScale` | video/video.c:100-101 | scaling by a positive rate keeps order |
| `Timestamps.ModOfStep` | video/video.c:116 | one more frame keeps the audio counter a multiple of the frame size and moves its frame index on by one |
| `Video.Other` | video/video.c:131-141 | there are exactly two streams |
| `Video.CRem` | video/video.c:416 | C's `%`: a non-negative dividend gives the Euclidean remainder, and a negative one a remainder in `(-b, 0]` |
| `Video.Truncate` | video/video.c:417 | double-to-integer conversion truncates toward zero |
| `Video.ToUint16` | video/video.c:417 | storing into a `uint16_t` gives a value in `[0, 65536)`, which is the truncation when it fits |
| `Video.ToneSample` | video/video.c:410-417 | every sample of the tone is a `uint16_t` value |
| `Video.SilentTone` | video/video.c:411-417 | with volume 0.0 every sample is 0, whatever the sine returns |
| `Video.ToneBuffer` | video/video.c:415-420 | the tone buffer has `frame_size * channels` entries |
| `Video.ChannelsAgree` | video/video.c:418-419 | all channels of a sample hold the same value |
| `Video.SendKeepsAccount` | video/video.c:373-400 | a successful send keeps its stream accounted for: written then queued timestamps are exactly those stamped |
| `Video.SplitQueue` | video/video.c:381-397 | splitting the queue at the released packets keeps the account |
| `Video.SendKeepsOtherAccount` | video/video.c:373-400 | a successful send leaves the other stream's account as it was |
| `Video.CleanDrain` | video/video.c:380-397 | when no receive or write fails, the drain loop runs to the end |
| `Video.CleanSend` | video/video.c:373-400 | with every call succeeding, send_frame on an encoder that still accepts input returns EAGAIN for a frame and EOF for the flush |
| `Video.ScaleStep` | video/video.c:116 | one audio frame moves the scaled audio time on by at least one, so the catch-up loop terminates |
| `Video.VideoCtx.Allocate` | video/video.c:15 | the context before the stream set-up; malloc leaves its fields indeterminate, and the set-up resets both counters (video/video.c:179, 269) before anything reads them; the model starts them at 0 with nothing stamped |
| `Video.VideoCtx.VideoStreamInit` | video/video.c:177-265 | video counter 0; time base `1/framerate`; GOP `framerate / 4`; fails exactly when a set-up call fails or the time base is not positive |
| `Video.VideoCtx.AudioStreamInit` | video/video.c:267-371 | audio counter 0; 44100 Hz; stereo; the encoder's frame size; a source buffer of `frame_size * channels` samples; a negative code exactly when a set-up call or the resampler fails |
| `Video.VideoCtx.SendFrame` | video/video.c:373-400 | a rejected frame gives -1 and changes nothing; otherwise the frame is accepted and drained; return code, encoder and written packets are those of `SendOutcome` |
| `Video.DrainPackets` | video/video.c:380-399 | the receive-and-write loop gives exactly `DrainOutcome`: the packets written before the first failing call, or all ready packets and EAGAIN or EOF |
| `Video.VideoCtx.FillTestAudioData` | video/video.c:402-421 | the buffer is exactly the tone buffer, and every entry is 0 |
| `Video.VideoCtx.PrepareAudioFrame` | video/video.c:104-112 | fills the buffer, then -1 when the frame cannot be made writable, the library code when conversion fails, otherwise 0 |
| `Video.VideoCtx.StampAndSendAudio` | video/video.c:114-119 | the frame is stamped with the old audio counter, which then advances by one frame whatever the send returns |
| `Video.VideoCtx.CatchUpStep` | video/video.c:100-120 | one pass of the catch-up loop: it stamps a frame exactly when writable and convert succeed; with a clean run it succeeds |
| `Video.VideoCtx.CatchUpAudio` | video/video.c:100-120 | the loop stamps a run of audio frames, each before the video frame; on success audio has caught up; it is accounted; with a clean run it succeeds |
| `Video.VideoCtx.StampAndSendVideo` | video/video.c:122-141 | the video frame is stamped with the old video counter, which moves on by exactly one |
| `Video.VideoCtx.SendData` | video/video.c:99-148 | a successful data submission is one frame step and returns the new video counter; with a clean run it succeeds |
| `Video.VideoCtx.FlushStreams` | video/video.c:131-146 | audio is flushed first and a non-EOF result is returned at once; otherwise video is flushed, and on EOF `close_all` runs and 0 is returned even if the trailer failed; afterwards every stamped frame is written |
| `Video.VideoCtx.CloseAll` | video/video.c:153-175 | the trailer is written first; the context is released only when that succeeds |
| `Video.VideoCtxNew` | video/video.c:14-79 | NULL with a negative result exactly when a set-up step fails; otherwise a consistent context with both counters at 0 and nothing written |
| `Video.VideoSendFrame` | video/video.c:91-149 | -1 and no change for NULL or a stride below 1; with data a successful call returns the new video counter, which is the number of frames submitted; neither counter decreases; without data the flush sequencing holds |
| `Video.VideoCtxFree` | video/video.c:81-89 | exits with -1 for NULL; otherwise flushes: the exit status is the audio flush's failure, or -1 for a failed video flush, and there is no exit when both end in EOF; the written packets are those of the two flushes; with every flush call succeeding there is no exit |
| `Scenarios.FirstView` | fractal/fractal.c:330-348 | the view a first job draws takes the mode and size of its configuration |
| `Scenarios.SingleFlight` | fractal/fractal.c:70-72 | while a photo job runs, a second photo and a video are both refused with `MB_EXEC` |
| `Scenarios.PhotoJob` | fractal/fractal.c:65-152 | a whole photo job reports progress 0, then the write result; the buffer holds the configuration's image; the engine is free again |
| `Scenarios.PhotoWithoutProgressAsWritten` | fractal/fractal.c:82 | as written, an accepted photo without a progress callback calls through NULL |
| `Scenarios.PhotoWithoutProgress` | fractal/fractal.c:98-102 | corrected, the same photo is accepted and reports only the write result |
| `Scenarios.StuckAfterFailedVideoAsWritten` | fractal/fractal.c:201-204 | as written, after a video whose file cannot be opened, the next photo is refused with `MB_EXEC` |
| `Scenarios.FreeAfterFailedVideo` | fractal/fractal.c:201-204 | corrected, the same next photo is accepted |
| `Scenarios.VideoJob` | fractal/fractal.c:154-257 | a video whose every library call succeeds completes and reports progress 0, then each frame in seconds, then a successful save; the next photo is accepted |

## Left out

- Concurrency is not modelled. This covers `pthread_create`/`pthread_join`, the semaphore around the row counter, and the non-atomic busy check. The workers run one after another. A photo's `nanosleep` polling loop and its intermediate progress reports (fractal/fractal.c:123-129) are not modelled either.
- The video stop request is taken to arrive at a frame boundary, once `stopAfter` frames are submitted. In the source, `mb_video_stop` can be called at any moment from the user interface thread.
- IEEE-754 arithmetic is not modelled: coordinates, zoom and palette formulas use exact `real`s.
  - The escape loop has no rounding.
  - The `png_byte` cast is exact truncation of the exact value.
  - `fractal_zoom *= zoom_step` is a real product.
  - The progress fraction is not rounded to `float`.
  - A zoom of 0 makes every coordinate infinite or NaN in C. The model then gives the black of entries 0 and `max` directly.
- The sine of the test tone is a parameter (`tone`). With volume 0.0 its value never matters.
- `Fractal.Supported` requires `max_iterations >= 1`, `threads >= 1` and a non-negative size.
  - With 0 iterations the C palette divides 0 by 0, or stays NULL on a first job.
  - With no workers nothing is drawn.
  - `int` overflow of `width * height * 3` is not modelled.
- `Fractal.Engine.RunVideo` requires an encoder frame size of at least 1. `audio_stream_init` takes it from the AAC encoder, which fixes it at 1024.
- FFmpeg, libswscale, libswresample and libpng internals are abstract success or failure outcomes. This covers codec and muxer set-up, `sws_scale`, `swr_convert`, `av_packet_rescale_ts`, header and trailer contents, `avio`, and `png_image_write_to_file` (the `written` parameter).
- The muxer's own interleaving buffer is not modelled: `out` is the order of `av_interleaved_write_frame` calls.
- The encoder is a FIFO with a fixed look-ahead. A write that fails loses its packet: what the muxer keeps of it is not modelled. The audio codec context's time base is taken to be `1/sample_rate`.
- The branch that returns 0 after a data frame when the video send reports EOF (video/video.c:143-146) is never taken. An encoder only reports EOF after the flush frame, so the data path returns the video counter.
- The video metadata dictionary and its `snprintf` title (fractal/fractal.c:191-196) are not modelled.
- malloc, free and leaks are not modelled. This includes allocation failure, the context that stays unfreed when `avformat_write_header` fails, and the buffers a failed video job leaves behind.
- The `int64_t` video counter converted to the `int` return of `video_send_frame` is not truncated. `video_ctx_new`'s `result` out-pointer, which `video_thread` passes as NULL, is always returned.
- `fractal/fractal.h` is not part of this model. The fields of `fractal_config_t` and `mb_video_config_t` are the ones `fractal.c` reads.
- `Video.VideoCtx.CatchUpAudio`: the contract does not state that the audio counter stays advanced when a send fails. That property is stated where it happens, in `Video.VideoCtx.StampAndSendAudio`.
- `Video.VideoCtx.SendData`: the same holds for the data path as a whole. Its contract states the counters only on success.
- `Video.VideoSendFrame`: likewise for the failure of a data submission. The contract gives the return codes and that neither counter decreases.

## Findings

| source | as written | input that shows it | evidently intended | confidence | as-written member | corrected member |
|---|---|---|---|---|---|---|
| fractal/fractal.c:82 | `fractal_begin_photo` calls `on_progress(0)` unconditionally after accepting the job | an accepted photo request with `on_progress == NULL` (the photo thread treats it as optional at line 98) | report progress 0 only when there is a progress callback | not executed | `Fractal.Engine.BeginPhotoAsWritten` (`Scenarios.PhotoWithoutProgressAsWritten` shows the NULL call) | `Fractal.Engine.BeginPhoto` (`Scenarios.PhotoWithoutProgress`) |
| fractal/fractal.c:201-204, 233-236 | the failure paths of `video_thread` call `on_save(0)` and return without clearing `mb_gen_status` | a video whose output file cannot be opened (`video_ctx_new` returns NULL), or a frame whose submission fails | release the engine on every path that reports to `on_save`, so later jobs are accepted | not executed | `Fractal.Engine.VideoThreadAsWritten` (`Scenarios.StuckAfterFailedVideoAsWritten`: the next photo gets `MB_EXEC`) | `Fractal.Engine.VideoThread` (`Scenarios.FreeAfterFailedVideo`: the next photo gets `MB_OK`) |
