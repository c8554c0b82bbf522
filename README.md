# Umgebung shape recorder and movie decoder, modelled in Dafny

This project models two sequential components of the Umgebung creative-coding
library.

- **`PShape`**, the retained shape recorder (`shape.dfy`). `beginShape` turns
  recording on. `vertex` appends six floats (x, y, z, r, g, b), but only while
  recording. `endShape` creates a vertex array, a buffer, two shaders and a
  program. It uploads the pending floats, captures their count in
  `fVerticesSize` and clears the pending list. `draw` issues one
  `GL_TRIANGLES` draw of `fVerticesSize / 6` vertices. `release` deletes the
  five GL objects.
- **`Movie`**, the video decode controller (`media.dfy`). `init_from_file`
  runs its setup steps in order and returns -1 at the first one that fails:
  open, stream info, first video stream, codec, scaler, frame, converted frame.
  Along the way it chooses RGB24 or RGBA. `available()` reads one packet and
  decodes it only if it belongs to the video stream. It counts the frames it
  receives. `read()` uploads the converted frame as an RGB or RGBA texture.
  The destructor frees everything in a fixed order.

OpenGL is replaced by `Gl.Context` (`gl.dfy`). It keeps a log of the calls
issued and a counter that hands out fresh non-zero object names. The effect of
a shape or movie operation on the GPU is therefore the exact list of calls it
appends. FFmpeg is replaced by a `MediaFile` value. It records which setup
steps succeed, the streams with their media type, and the packets in container
order. Each packet carries its stream index and what the decoder reports for
it: a frame (its converted pixels, as opaque bytes), EAGAIN, EOF or another
error.

Two call-trace clients connect the operations to independent reference
definitions:

- `Shape.Replay` runs any sequence of shape calls on a fresh shape. It proves
  that the draw calls in the GL log carry exactly the vertex counts of the
  trace semantics `Shape.Draws`.
- `Media.PlayThrough` opens a file and calls `available()` once per packet,
  plus any number of extra times. It proves that the call for each packet
  returns `true` exactly when that packet is a decodable video packet, and
  that every call after the last packet returns false. The number of `true`
  results equals the frame counter and the number of decodable video packets.

The model follows the code as written:

- `beginShape` does not clear pending vertices (`Shape.BeginKeepsPendingVertices`).
- `endShape` uploads even an empty list and does not check compile or link status.
- `draw` does not skip a zero count.
- `release` is not guarded against a second call.
- A channel request of 4 on a 3-component source gives RGB24, not RGBA
  (`Media.RequestDoesNotForceRgba`).
- The destructor's order is not the reverse of the acquisition order.

## Model

| member | source | states |
|---|---|---|
| `Shape.PShape.BeginShape` | src/PShape.cpp:22-25 | recording is on and `fShape` holds the mode; pending vertices, pending count and `fVerticesSize` are unchanged |
| `Shape.PShape.Vertex` | src/PShape.cpp:66-74 | while not recording nothing changes; while recording exactly x, y, z, r, g, b are appended in that order after the earlier floats; the pending float count stays six times the accepted vertex() calls |
| `Shape.PShape.EndShape` | src/PShape.cpp:27-64 | recording is off; `fVerticesSize` is the pending float count and `fVerticesSize / 6` the number of vertex() calls accepted since the last endShape; the pending list is empty; five fresh GL objects are stored and the GL log gains the upload, compile and link calls with the pending floats as buffer data |
| `Shape.UploadVertices` | src/PShape.cpp:30-35 | creates a vertex array and a buffer with fresh names, binds both and uploads exactly the given floats |
| `Shape.CompileShader` | src/PShape.cpp:37-45 | creates one shader of the given kind with a fresh name, sets its source and compiles it |
| `Shape.LinkProgram` | src/PShape.cpp:47-60 | creates the program, attaches both shaders, links and uses it, lays out attribute 0 (3 floats at offset 0) and attribute 1 (3 floats at offset 3) with stride 6, and unbinds the vertex array |
| `Shape.PShape.Draw` | src/PShape.cpp:84-89 | issues exactly use-program, bind, one TRIANGLES draw of `fVerticesSize / 6` vertices from 0, unbind; no field changes, so repeated draws issue identical calls, whatever `fShape` holds |
| `Shape.PShape.Release` | src/PShape.cpp:76-82 | deletes exactly the stored vertex array, buffer, program, vertex shader and fragment shader, in that order; creates nothing |
| `Shape.RecordingRun` | src/PShape.cpp:66-74 | in the trace semantics, while recording each vertex() call adds exactly one pending vertex and recording stays on |
| `Shape.StrayVerticesIgnored` | src/PShape.cpp:66-67 | vertex() calls outside a recording block change neither the pending count nor the finalized count |
| `Shape.ReFinalizeSupersedes` | src/PShape.cpp:62-63 | endShape, beginShape, n vertex() calls, endShape gives a finalized count of n, whatever came before |
| `Shape.BeginKeepsPendingVertices` | src/PShape.cpp:22-25 | a second beginShape inside an unfinished block keeps the vertices already recorded: the next endShape counts both runs |
| `Shape.EndThenBegin` | src/PShape.cpp:22-25 | in the trace semantics, endShape followed by beginShape leaves the shape recording with no pending vertex |
| `Shape.RunThenEnd` | src/PShape.cpp:62-74 | a run of vertex() calls inside a recording block followed by endShape captures the pending count plus the run's length |
| `Shape.Perform` | src/PShape.cpp:22-89 | one call of a trace: its effect on recording, the pending count and `fVerticesSize`, and the draw counts it adds to the GL log |
| `Shape.Replay` | src/PShape.cpp:62-89 | for every call trace, the draw calls the shape issues carry exactly the vertex counts of the trace semantics `Draws` |
| `Media.FirstVideoIndex` | src/Movie.cpp:56-68 | the index of the first stream whose type is video, and -1 exactly when no stream is video |
| `Media.FindVideoStream` | src/Movie.cpp:57-63 | the first-match loop returns `FirstVideoIndex` of the streams |
| `Media.TargetLayout` | src/Movie.cpp:86-102 | the channel count is 3 or 4; it is 4 exactly when the request is negative or a source descriptor exists with 4 components; the format is RGBA exactly for 4 channels and RGB24 otherwise |
| `Media.RequestDoesNotForceRgba` | src/Movie.cpp:90-102 | a non-negative request on a 3-component source, or with no descriptor, gives 3 channels in RGB24 |
| `Media.FirstFailureIsFirst` | src/Movie.cpp:45-129 | the step init_from_file fails at fails, and every earlier step passes; there is no failing step exactly when every step passes |
| `Media.StagesRun` | src/Movie.cpp:42-147 | the steps run are a prefix of the step order: all of them on success, otherwise ending with the first failing step |
| `Media.Movie.InitFromFile` | src/Movie.cpp:42-147 | returns 1 exactly when every step passes, else -1; it runs exactly `StagesRun` and none of the later steps; the container is the source when it opens and empty otherwise; `videoStream` becomes the first video index once stream info is read (-1 if none); on success width, height and channels come from the video stream and `TargetLayout`; on failure they are unchanged |
| `Media.Movie.OpenContainer` | src/Movie.cpp:43-68 | open, stream info and the video stream search, stopping at the first failure; the old container is replaced in every case, by the new one when it opens and by an empty one (`NoContainer`) when opening fails, because the library frees the fresh context then |
| `Media.Movie.OpenDecoder` | src/Movie.cpp:70-146 | codec, scaler, frame and converted frame, stopping at the first failure; image size and channel count are set only when all succeed |
| `Media.Movie.constructor` | src/Movie.cpp:34-40 | the movie exists whether or not setup succeeds; it runs exactly `StagesRun` and is ready exactly when no step fails; when ready, width and height are the video stream's and channels is `TargetLayout` of the request and the stream's descriptor; otherwise all three stay 0 |
| `Media.Step` | src/Movie.cpp:161-189 | available is true exactly when a packet was read, it belongs to the video stream and a frame was received; a packet is consumed exactly when one remains; with no packet left only the read is attempted |
| `Media.StepCalls` | src/Movie.cpp:163-187 | when a packet was read, the read comes first and frame and packet are unreferenced last; a packet of another stream is never sent to the decoder; the frame is converted exactly when available is true |
| `Media.Movie.Available` | src/Movie.cpp:161-189 | result, cursor advance and library calls are those of `Step`; `mFrameCounter` rises by 1 exactly on true, so it stays equal to the number of true results; the converted buffer takes the new frame only on true |
| `Media.PlayThrough` | src/Movie.cpp:161-189 | after one call per packet plus `extra` calls, the call for packet k returns true exactly when packet k is decodable for the first video stream, every call after the last packet returns false, and the true results, the frame counter and the decodable video packets all have the same count, at most the number of packets |
| `Media.CallAvailable` | src/Movie.cpp:161-189 | `calls` available() calls on a freshly opened movie return exactly `PlayResults`, and the frame counter equals the number of true results |
| `Media.PlayResultsSummary` | src/Movie.cpp:161-189 | in the reference results of a play-through, entry k is true exactly for a decodable packet k, entries after the last packet are false, and the true entries number `DecodedFrames` |
| `Media.PlayResultsCount` | src/Movie.cpp:161-189 | while packets remain, the true results of the first n calls count the decodable packets among the first n |
| `Media.CountTrueExtremes` | src/Movie.cpp:161-189 | the frame count of a run of calls is at most the number of calls, 0 exactly when no call returned true, and the number of calls exactly when every call did |
| `Media.NoDecodedFrames` | src/Movie.cpp:161-189 | no frame is counted exactly when no packet belongs to the video stream with a frame received |
| `Media.UploadFormat` | src/Movie.cpp:191-197 | the upload format is RGBA exactly when channels is 4, RGB otherwise |
| `Media.UploadMatchesConversion` | src/Movie.cpp:193-197 | the upload format always agrees with the conversion format chosen at open |
| `Media.Movie.Read` | src/Movie.cpp:191-206 | on a movie whose setup succeeded, uploads one width-by-height texture of the converted buffer in `UploadFormat(channels)` and changes no decode state, so two reads with no available() between them upload the same pixels |
| `Media.TeardownCalls` | src/Movie.cpp:149-159 | nine distinct releases, each resource once; the decoder is closed and freed before the container is closed |
| `Media.Movie.Close` | src/Movie.cpp:149-159 | the destructor appends exactly `TeardownCalls`, in order |

## Left out

- OpenGL itself: shader sources, compile and link results, and any GL error state are not modelled. Object names come from a counter and are never reused, whereas a real driver may reuse deleted names.
- Attribute stride and offset are counted in floats; the source multiplies them by `sizeof(GLfloat)`.
- Vertex floats are modelled as `real` values that are stored and uploaded unchanged; no floating-point arithmetic is done on them.
- `PShape.h`, `Movie.h` and `PImage` are not part of this model. The initial field values are assumed: not recording, mode 0, no pending vertices, size 0, handles 0, and for a movie width, height and channels 0, `videoStream` -1, frame counter 0.
- Shape.PShape.EndShape: the GL objects of an earlier endShape are overwritten without being deleted, as in the source; the model does not track leaked objects.
- FFmpeg internals: demuxing, decoding, `sws_scale` colour conversion and `av_image_get_buffer_size` arithmetic. Each packet carries its decoder outcome up front, so decoder-side buffering across packets is not modelled.
- `av_read_frame` fails only at the end of the packet list; read errors before that are not modelled.
- Media.Movie.Read: requires that the last init_from_file returned 1; after a failed setup the source reads the pixels of a converted frame that was never allocated.
- Media.Movie.Available: requires that the last init_from_file returned 1, because the source would use a null or half-built context otherwise.
- Media.Movie.InitFromFile: the unchecked allocations (`avformat_alloc_context`, `av_malloc` of the pixel buffer, `av_packet_alloc`) are always taken to succeed. Resources acquired before a failing step are not released, and the model does not track them.
- The converted buffer's content before the first decoded frame is whatever it held before.
- Media.Movie.InitFromFile: the frame-rate and frame-duration arithmetic (src/Movie.cpp:80-84) is not modelled. That includes the integer division `frame_rate.num / frame_rate.den` at line 83, which faults when the stream's average frame rate has a zero denominator (an unknown rate). The model continues past it and returns 1 for such a file, so Media.Movie.constructor gives a ready movie where the program would stop.
- All logging: the frame-rate messages and the error messages.
- The disabled-video stubs (src/Movie.cpp:208-222), in which available() is false and init returns -1.
- The example sketch (window, input, 2D drawing, random numbers, the audio sine generator).
