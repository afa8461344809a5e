# console-insight capture layer in Dafny

This project models the capture layer of console-insight's in-page debug overlay (`src/components/DebugWindow.tsx`). The overlay patches three global entry points: `console.log`, `console.error` and `window.fetch`. Every intercepted call becomes one `LogEntry` appended to the overlay's capture buffer. Failed image loads are recorded the same way, through a capture-phase `error` listener on `window`. A frame-driven sampler keeps a current-metrics slot up to date: frame rate, JS heap, pointer position and window size.

Modules:

- `Records` (`records.dfy`) holds the record model (`LogType`, `Details`, `LogEntry`) and the pure rules that build a record from each kind of event. A console message is the rendered arguments joined by one space. Error details are taken from an `Error` first argument. The network success and failure messages and details, and the image failure message, are built here too. Each message template comes with a parser that reads its numbers back, and a round-trip lemma.
- `Text` (`text.dfy`) holds `join(' ')` and its splitter, the decimal rendering of integers in template strings and its reader, and prefix stripping, with their round-trip lemmas.
- `Sampler` (`sampler.dfy`) holds the metrics slot and the three updates the overlay applies to it: flush, pointer move and resize. It also holds `Math.round` of the frame rate on integer milliseconds, and one tick of the sampling loop as a function of its two refs (`frameCount`, `lastFrameTime`). `Run` gives a sequence of ticks.
- `Expansion` (`expansion.dfy`) holds `toggleExpand` as a set toggle.
- `DebugWindow` (`debug_window.dfy`) holds two classes. `Environment` has the three entry points as fields holding tagged values (`Fn`): a wrapper carries the original it saved. It also holds the registered window listeners and the live `requestAnimationFrame` loops. `Overlay` has the buffer, the expanded set, the metrics slot and the sampler refs. Its methods are the wrappers and listeners, each stated as an append to `logs` or an update of the slot. `Install` is the mount effect and `Teardown` the closure it returns. `MountThenUnmount` and `LogWhileMounted` put these together.

Clock reads (`Date.now()`, `performance.now()`), the fetch outcome, the body read, the rendering of each console argument, heap figures and window sizes are parameters. Times are integer milliseconds.

The model keeps these behaviours of the code as written:

- Teardown restores the three entry points and removes the `mousemove` and `resize` listeners. The anonymous capture-phase `error` listener is never removed, and the sampling loop is never cancelled (`MountThenUnmount` states both leaks).
- The failure record's details field is `error`, not `errorMessage`. It holds `error.message` for an `Error` and `String(error)` otherwise.
- The `error` listener records only events whose target is an image element. Other window errors, uncaught script errors among them, are ignored.
- A `URL` object passed to `fetch` has no `url` property. The record's URL is then undefined, and the message starts with `undefined`.
- If reading the cloned body throws after `fetch` resolved, the `catch` branch runs. It records an `error` entry and throws that error to the caller instead of returning the response.
- `init?.method || 'GET'` also turns an empty method string into `GET`, and `event.error?.message || 'Unknown error'` turns an empty message into `Unknown error`.
- A console argument of type `'object'` is rendered with `JSON.stringify`. For an `Error` that is `"{}"`, so `console.error(new Error("boom"))` gets the message `{}`. Its name, message and stack appear only in `details`. `undefined` renders as the empty string, `null` as `null`.

## Model

| member | source | states |
|---|---|---|
| `Records.ConsoleMessage` | src/components/DebugWindow.tsx:48-50 | no arguments give the empty message; a single argument gives exactly its rendering |
| `Records.ConsoleMessageConcat` | src/components/DebugWindow.tsx:48-50 | the message of a concatenation of argument lists is the two messages joined by exactly one space |
| `Records.ConsoleMessageParts` | src/components/DebugWindow.tsx:56-58 | when no rendering holds a space, splitting the message on spaces gives back exactly the per-argument renderings, in order |
| `Records.ConsoleErrorDetails` | src/components/DebugWindow.tsx:63-67 | details are present exactly when the first argument is an `Error`, and then carry its name, message and stack; otherwise they are absent |
| `Records.LogRecord` | src/components/DebugWindow.tsx:51 | a console.log record has type `log`, the call time as timestamp, the joined message and no details |
| `Records.ErrorRecord` | src/components/DebugWindow.tsx:59-68 | a console.error record has type `error`, the call time, the joined message, and details that carry the first argument's name, message and stack when it is an `Error` and are absent otherwise |
| `Records.UrlOf` | src/components/DebugWindow.tsx:78 | the URL is the string itself for a string target, the request's `url` for a `Request`, and undefined exactly for a `URL` object |
| `Records.MethodOf` | src/components/DebugWindow.tsx:87 | the recorded method is the given `init.method` when it is present and non-empty, and `GET` otherwise (absent `init`, absent or empty method) |
| `Records.StatusMessageRoundTrip` | src/components/DebugWindow.tsx:83 | the success message `{url} - Status: {status} - Duration: {ms}ms` determines the status and the duration it was built from |
| `Records.FailureMessageRoundTrip` | src/components/DebugWindow.tsx:101 | the failure message `{url} - Error: {err} - Duration: {ms}ms` determines the duration it was built from |
| `Records.NetworkRecord` | src/components/DebugWindow.tsx:81-93 | a network record has type `network`, timestamp `endTime`, the message `{url} - Status: {status} - Duration: {endTime - startTime}ms` (status and duration read back from it), and details with the URL, the defaulted method, status, status text, headers and body text |
| `Records.FetchErrorRecord` | src/components/DebugWindow.tsx:96-104 | a failed-fetch record has type `error`, timestamp `endTime`, the message `{url} - Error: {String(error)} - Duration: {endTime - startTime}ms` (the duration reads back from it), and details holding the error's message, or its string form for a non-`Error` |
| `Records.ImageRecord` | src/components/DebugWindow.tsx:109-120 | an image record has type `image`, the event time, a message from which the image source reads back, and details with the source, the event error's message, or `Unknown error` when it is absent or empty, and the error's stack |
| `Text.JoinSplit` | src/components/DebugWindow.tsx:48-50 | joining the space-separated pieces of any string with single spaces gives back the string |
| `Text.ReadIntOfIntToString` | src/components/DebugWindow.tsx:83 | an integer rendered into a template string reads back as the same integer when a non-digit follows it |
| `Sampler.InitialMetrics` | src/components/DebugWindow.tsx:27-32 | at mount, fps, heap figures and pointer are zero and the screen size is the window size |
| `Sampler.MemoryReading` | src/components/DebugWindow.tsx:140-141 | heap figures default to zero when the memory API is unavailable |
| `Sampler.Fps` | src/components/DebugWindow.tsx:135 | the fps is `Math.round(frames * 1000 / elapsed)`: within one half of the exact rate, halves rounded up |
| `Sampler.FpsExact` | src/components/DebugWindow.tsx:135 | a whole-number frame rate is reported exactly, e.g. 60 frames over 1000 ms give 60 |
| `Sampler.FpsAtMostFrames` | src/components/DebugWindow.tsx:134-135 | over a window of at least 1000 ms the reported fps never exceeds the frames counted |
| `Sampler.Flushed` | src/components/DebugWindow.tsx:136-147 | a flush overwrites fps, memory and screen size and keeps the pointer position |
| `Sampler.MouseMoved` | src/components/DebugWindow.tsx:155-160 | a pointer move overwrites only the pointer position |
| `Sampler.Resized` | src/components/DebugWindow.tsx:162-170 | a resize overwrites only the screen size |
| `Sampler.MouseMoveCommutesWithFlush` | src/components/DebugWindow.tsx:155-160 | a pointer move and a flush give the same slot in either order |
| `Sampler.MouseMoveCommutesWithResize` | src/components/DebugWindow.tsx:162-170 | a pointer move and a resize give the same slot in either order |
| `Sampler.FlushOverridesResize` | src/components/DebugWindow.tsx:143-146 | a flush after a resize leaves the slot as if the resize had not happened |
| `Sampler.Tick` | src/components/DebugWindow.tsx:129-153 | each tick counts one frame; once `now - lastFrameTime >= 1000` it publishes the rounded rate of the counted frames, resets the count to 0 and the flush time to `now`; below that nothing but the count changes |
| `Sampler.QuietFramesOnlyCount` | src/components/DebugWindow.tsx:131-134 | any number of ticks within 1000 ms of the last flush only add their number to the frame count and leave the metrics untouched |
| `Sampler.OneSecondWindow` | src/components/DebugWindow.tsx:129-151 | after a flush, n quiet ticks followed by one tick exactly 1000 ms later publish n + 1 fps and restart the window |
| `Expansion.Toggle` | src/components/DebugWindow.tsx:194-204 | the index is in the new set if and only if it was absent before; every other index keeps its membership |
| `Expansion.ToggleTwice` | src/components/DebugWindow.tsx:194-204 | toggling the same index twice gives back the original set |
| `Expansion.ToggleCommutes` | src/components/DebugWindow.tsx:194-204 | toggles of two indices give the same set in either order |
| `DebugWindow.ThirdPartyLibraries` | src/components/DebugWindow.tsx:240-243 | an absent registry gives no libraries; otherwise one `name@version` per registry entry, in order |
| `DebugWindow.Overlay.constructor` | src/components/DebugWindow.tsx:25-40 | at mount the buffer and expanded set are empty, the frame count is 0 and the flush time is the mount time |
| `DebugWindow.Overlay.ConsoleLog` | src/components/DebugWindow.tsx:47-53 | appends exactly one `log` record at the end of the buffer, leaves earlier records unchanged, and forwards the same arguments to the saved original |
| `DebugWindow.Overlay.ConsoleError` | src/components/DebugWindow.tsx:55-70 | appends exactly one `error` record at the end of the buffer and forwards the same arguments to the saved original |
| `DebugWindow.Overlay.Fetch` | src/components/DebugWindow.tsx:72-107 | calls the saved original with the caller's arguments. On success it appends one `network` record and returns the original response unchanged. On a rejected call or a failed body read it appends one `error` record and throws the same value |
| `DebugWindow.Overlay.WindowError` | src/components/DebugWindow.tsx:109-127 | an error event on an image appends one `image` record; any other target leaves the buffer unchanged |
| `DebugWindow.Overlay.SampleFrame` | src/components/DebugWindow.tsx:129-153 | the sampler refs and metrics slot move by exactly one `Tick` |
| `DebugWindow.Overlay.MouseMove` | src/components/DebugWindow.tsx:155-160 | the slot changes by a pointer-only update; buffer and sampler refs are untouched |
| `DebugWindow.Overlay.Resize` | src/components/DebugWindow.tsx:162-170 | the slot changes by a screen-size-only update |
| `DebugWindow.Overlay.ToggleExpand` | src/components/DebugWindow.tsx:194-204 | the expanded set is replaced by its toggle at the index |
| `DebugWindow.Overlay.Install` | src/components/DebugWindow.tsx:42-174 | saves the three originals, installs a wrapper around each, registers the image, pointer and resize listeners, starts one sampling loop and runs its first tick |
| `DebugWindow.Teardown` | src/components/DebugWindow.tsx:176-182 | restores the three entry points to exactly the saved originals and removes the pointer and resize listeners; the image listener and the sampling loop remain |
| `DebugWindow.MountThenUnmount` | src/components/DebugWindow.tsx:42-183 | after mount and unmount the entry points equal their originals, while one image listener and one sampling loop remain |
| `DebugWindow.LogWhileMounted` | src/components/DebugWindow.tsx:43-53 | a console.log while mounted leaves exactly one record in the fresh buffer and reaches the function that was installed before the overlay |

## Left out

- Rendering, JSX and window chrome (dragging, resizing, minimise, maximise, visibility) and the auto-scroll effect are not modelled. They are presentation over the buffer and the slot.
- `src/App.tsx` is not part of this model. It holds only demo buttons that call the captured entry points.
- `JSON.stringify` and `String(...)` are not computed. Each console argument carries the text they produce.
- `JSON.stringify` throws on a circular structure or a BigInt, and `join` throws on a Symbol. In those cases the real wrapper throws before it appends or forwards anything. The model's rendering is total and does not capture this.
- The network layer, `response.clone()`, `.text()` and `headers.entries()` are not modelled. The outcome of the call, its headers as a map and the body text (or the error reading it) are inputs.
- The `await` suspensions are not modelled. A wrapped fetch is one step from its start time to its settle time. Concurrent fetches append in completion order, which is the order their `Fetch` steps are taken.
- React batches `setState` updaters. The model applies each updater immediately, in call order, which is the order React applies them.
- `performance.now()` returns fractional milliseconds; here time is whole milliseconds. `Fps` rounds an exact rational, so sub-millisecond timing is not captured.
- The MB display of heap figures (`toFixed`) is not modelled. It is floating-point formatting in the view.
- Registering and removing DOM listeners is modelled as a multiset of listener tags. Scheduling by `requestAnimationFrame` is modelled as a count of live loops, and `Overlay.SampleFrame` is one scheduled run.
- Mounting two overlays at once, which would wrap the wrappers, is not explored. The `Fn` tags nest, so `Install` on an already wrapped environment shows the double wrap.
- `navigator.userAgent` and the other read-only browser facts shown in the view are not modelled.
