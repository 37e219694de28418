# xpra GStreamer video pipeline, modelled in Dafny

This project models `VideoPipeline` from xpra's `xpra/codecs/gstreamer/codec_common.py`.
It is the shared base of xpra's GStreamer video encoders and decoders. A `VideoPipeline`
records a session's encoding, geometry and colorspace. It builds a GStreamer pipeline
through a factory that subclasses supply. It pushes one input buffer at a time into the
pipeline and takes the pipeline's output from a FIFO queue, with a wait bound. It filters
bus messages, reports its state as an info dictionary and as a short description, and
can be cleaned. The module-level version information is modelled too.

Files:

- `codec_common.dfy` (module `CodecCommon`): the module-level info and the
  `VideoPipeline` class. Its fields are updated in place by `InitContext`, `ProcessBuffer`
  and `Clean`. `IsReady`, `IsClosed`, `GetInfo`, `Repr`, `OnMessage` and `QueueTimeout`
  are functions of the current fields. The class ends with lemmas about `Repr`.
- `text.dfy` (module `PyText`): Python's `str.find`, given with a reference definition
  (`Contains`, the existence of an occurrence). Also Python's decimal rendering of
  integers, which f-strings use, with a parser and a round-trip proof.
- `gst.dfy` (module `Gst`): GStreamer's flow statuses and bus-message kinds, as values.
- `wrappers.dfy` (module `Wrappers`): `Option`, standing for Python's `None`.
- `scenarios.dfy` (module `Scenarios`): client methods without contracts. They check
  typical sessions using only the class's contracts: init then info, a failing factory,
  two frames, a refused push, a timeout, clean twice, and a VA-API context request.

External collaborators are parameters. `InitContext` takes the subclass's
`create_pipeline` as a function from options to `Built(description)` or
`Raised(description, error)`; in both cases `description` is the pipeline
description the factory set, which then becomes `pipelineStr`. `ProcessBuffer` takes the status GStreamer returned for the push.
`OnMessage` takes the reply the base class's handler would give. A raised exception is
modelled as the returned `InitOutcome.Failed`.

Points where the code behaves differently from what one might expect of such an adapter, and which the model follows:

- Nothing in this file increments the frame counter `frames`, so `ProcessBuffer` leaves
  it unchanged. In this file the wait bound is therefore 2 on every call; only a
  subclass that changes `frames` sees the bound of 1.
- `init_context` assigns `colorspace` before it calls `create_pipeline`. A raising
  factory therefore leaves the object ready. `pipelineStr` then holds whatever the
  factory set before raising: empty when the factory set none, as the base class's
  does (`Scenarios.FailedFactoryLeavesReady`), and a VA-API description keeps
  context requests acknowledged (`Scenarios.FailedVaapiFactoryStillAcknowledges`).
- `clean` does not drain the queue, and neither does `Clean`.
- `init_context` does not check its arguments. `InitContext` takes the colorspace as an
  `Option<string>` and leaves the object ready exactly when it was given `Some`.

The constructor's state is the model's own assumption: no colorspace, empty strings,
zero sizes, an empty queue. `codec_common.py` assigns these fields only in
`init_context` and `clean`; nothing in it establishes a state before `init_context`.

## Model

| member | source | states |
|---|---|---|
| `CodecCommon.ModuleInfo` | xpra/codecs/gstreamer/codec_common.py:17-24 | the module's info has exactly one key, "version", whose value is the version (5, 0) |
| `CodecCommon.BaseCreatePipeline` | xpra/codecs/gstreamer/codec_common.py:56-57 | the base class's pipeline factory always raises, whatever the options, and sets no description |
| `CodecCommon.VideoPipeline.IsClosed` | xpra/codecs/gstreamer/codec_common.py:100-104 | closed is the exact complement of ready; both are decided by the colorspace alone |
| `CodecCommon.VideoPipeline.InitContext` | xpra/codecs/gstreamer/codec_common.py:38-47 | encoding, width, height and colorspace equal the arguments; the counter is 0 and the queue empty; the factory is called with the options, or with an empty map when they are absent; if it builds, the call succeeds and the description is the built one; if it raises, the call fails with that error, the description is whatever the factory set before raising (empty when it set none), and the object is still ready whenever a colorspace was given |
| `CodecCommon.VideoPipeline.OnMessage` | xpra/codecs/gstreamer/codec_common.py:59-63 | a message is acknowledged (reply OK, no delegation) exactly when it is NEED_CONTEXT and "vaapi" occurs somewhere in the pipeline description; otherwise the base handler's reply is returned unchanged |
| `CodecCommon.VideoPipeline.QueueTimeout` | xpra/codecs/gstreamer/codec_common.py:75 | the wait bound is 2 exactly when no frame has been counted, and 1 exactly when one has |
| `CodecCommon.VideoPipeline.ProcessBuffer` | xpra/codecs/gstreamer/codec_common.py:69-78 | a refused push returns None without consulting the queue and changes nothing; after an accepted push, a non-empty queue gives its head and keeps the rest in order, and an empty queue gives None and stays empty; the wait bound used is the one for the current counter; the old queue is always the returned output followed by the new queue; the counter never changes |
| `CodecCommon.VideoPipeline.GetInfo` | xpra/codecs/gstreamer/codec_common.py:81-93 | the version is always reported; without a colorspace the info is exactly the module's info; with one, the keys are exactly version, frames, width, height, encoding and colorspace, each holding the current field |
| `CodecCommon.VideoPipeline.Repr` | xpra/codecs/gstreamer/codec_common.py:95-98 | the description starts with "gstreamer(" and, when ready, names the colorspace right after it |
| `CodecCommon.VideoPipeline.Clean` | xpra/codecs/gstreamer/codec_common.py:119-126 | whatever the prior state, width and height are 0, there is no colorspace, the encoding is empty, the destination formats are empty and the counter is 0, so the object is closed and reports only the module's info; the queue and the description are untouched |
| `CodecCommon.ReprShowsReadiness` | xpra/codecs/gstreamer/codec_common.py:95-98 | the description is "gstreamer(uninitialized)" if and only if the object is not ready |
| `CodecCommon.ReprDeterminesGeometry` | xpra/codecs/gstreamer/codec_common.py:95-98 | two ready objects with the same colorspace and the same description have the same width and height |
| `CodecCommon.ReprGeometryText` | xpra/codecs/gstreamer/codec_common.py:98 | for a ready object the description is "gstreamer(", the colorspace, " - ", then a text that splits at its first 'x' into the width and the height in decimal (read back by an independent parser), then ")" |
| `PyText.Find` | xpra/codecs/gstreamer/codec_common.py:60 | `str.find` gives -1 or an index where the pattern occurs, no earlier index holds an occurrence, and the result is non-negative exactly when the pattern occurs somewhere |
| `PyText.IntToDecimalRoundTrip` | xpra/codecs/gstreamer/codec_common.py:98 | parsing the decimal text an f-string writes for an integer gives that integer back |
| `PyText.IntToDecimalInjective` | xpra/codecs/gstreamer/codec_common.py:98 | distinct integers are written as distinct decimal texts |

## Left out

- GStreamer calls: looking up the `src` and `sink` elements, setting the `format` property, connecting the `new-sample` and `new-preroll` signals, and `start()` (lines 48-54). These are foreign library calls. `InitContext` ends once the factory returns, so a failure in these calls is not modelled.
- The push itself (`emit("push-buffer")`, line 70). It is a foreign call; its status is the `pushed` parameter of `ProcessBuffer`.
- Blocking, wall-clock time and thread safety of `Queue.get(timeout=...)` (lines 45, 75). The queue's contents at call time decide the result: an empty queue means a timeout. An output that a concurrent producer delivers during the wait is not modelled. The timeout is reported only as a number.
- `on_new_sample`, the producer side of the queue. It is connected at line 52 but is not defined in this file. `VideoPipeline.Enqueue` stands for its effect (append to the queue) so that the scenarios can be stated.
- The `Pipeline` base class: its constructor, `cleanup()` (called by `clean`) and `on_message` (called when a message is delegated). Their implementations are not part of this model. `Clean` assumes the base teardown leaves the modelled fields alone. The base handler's reply is a parameter of `OnMessage`.
- The subclasses' `create_pipeline`. It is a parameter of `InitContext`. A built pipeline is represented only by its textual description, which becomes `pipelineStr`.
- The `typedict` wrapping of options (line 39). Options are a `map<string, string>`; Python allows values of any type.
- Logging, `init_module`, `cleanup_module`, `get_type`, the getters `get_encoding`/`get_width`/`get_height`, `on_new_preroll` (it only logs and returns OK) and `do_emit_info`. None of them has behaviour beyond returning a field or a constant.
- Key order of the info dictionary. The model's info is a `map`, so Python's insertion order is not represented.
- `VideoPipeline.Repr`: its own contract states only the prefix and the colorspace; the rest of the text (" - ", width, "x", height, ")", in decimal) is stated by `ReprGeometryText`.
- Queries before `init_context`: in Python, `is_ready`, `is_closed`, `get_info` and `__repr__` on an object whose fields were never assigned raise AttributeError. The model's constructor gives the fields values, so these queries are not modelled as failing before `init_context`.
