/**
 * Client code showing what callers of `VideoPipeline` can conclude from its
 * contracts alone, for the typical sessions of an encoder.
 */
module Scenarios {
  import opened Wrappers
  import opened PyText
  import opened Gst
  import opened CodecCommon

  /** Initialising with a working factory, then asking for the info. */
  method InitThenInfo() {
    var p := new VideoPipeline();
    var desc := "appsrc name=src ! x264enc ! appsink name=sink";
    var outcome := p.InitContext("h264", 1920, 1080, Some("YUV420P"), None, _ => Built(desc));
    assert outcome == Started && p.IsReady() && p.pipelineStr == desc;
    var info := p.GetInfo();
    assert info["frames"] == IntValue(0) && info["width"] == IntValue(1920) && info["height"] == IntValue(1080);
    assert info["encoding"] == StrValue("h264") && info["colorspace"] == StrValue("YUV420P");
  }

  /** The base class's factory raises, yet the colorspace is already set. */
  method FailedFactoryLeavesReady() {
    var p := new VideoPipeline();
    var outcome := p.InitContext("vp8", 640, 480, Some("YUV420P"), Some(map["speed" := "50"]), BaseCreatePipeline);
    assert outcome.Failed? && p.IsReady() && !p.IsClosed() && p.pipelineStr == "";
  }

  /** A factory that sets a VA-API description and then raises: context requests are still acknowledged. */
  method FailedVaapiFactoryStillAcknowledges() {
    var p := new VideoPipeline();
    var head := "appsrc name=src ! ";
    var desc := head + VAAPI_MARKER + "h264enc ! appsink name=sink";
    var outcome := p.InitContext("h264", 1920, 1080, Some("NV12"), None, _ => Raised(desc, "element missing"));
    assert outcome == Failed("element missing") && p.pipelineStr == desc;
    assert desc[|head|..|head| + |VAAPI_MARKER|] == VAAPI_MARKER;
    assert OccursAt(desc, VAAPI_MARKER, |head|);
    assert p.OnMessage(NeedContext, Error) == Acknowledged;
  }

  /** Two frames in a row: each returns the next output and the counter stays at zero. */
  method TwoFrames(a: Buffer, b: Buffer, outA: Buffer, outB: Buffer) {
    var p := new VideoPipeline();
    var _ := p.InitContext("h264", 320, 240, Some("BGRX"), None, _ => Built("appsrc name=src ! appsink name=sink"));
    p.Enqueue(outA);
    var r, t := p.ProcessBuffer(a, Ok);
    assert r == Some(outA) && t == Some(2) && p.frameQueue == [];
    p.Enqueue(outB);
    r, t := p.ProcessBuffer(b, Ok);
    assert r == Some(outB) && t == Some(2) && p.frames == 0;
  }

  /** A refused push returns nothing and leaves the queue and counter alone. */
  method RefusedPush(c: Buffer, pending: Buffer) {
    var p := new VideoPipeline();
    var _ := p.InitContext("h264", 320, 240, Some("BGRX"), None, _ => Built("appsrc name=src ! appsink name=sink"));
    p.Enqueue(pending);
    var r, t := p.ProcessBuffer(c, Flushing);
    assert r == None && t == None && p.frameQueue == [pending] && p.frames == 0;
  }

  /** No output arrives: the call times out and the pipeline stays ready. */
  method TimeoutKeepsReady(d: Buffer) {
    var p := new VideoPipeline();
    var _ := p.InitContext("h264", 320, 240, Some("BGRX"), None, _ => Built("appsrc name=src ! appsink name=sink"));
    var r, t := p.ProcessBuffer(d, Ok);
    assert r == None && t == Some(2) && p.IsReady();
  }

  /** Cleaning a ready pipeline, twice, leaves only the static info. */
  method CleanThenInfo(pending: Buffer) {
    var p := new VideoPipeline();
    var _ := p.InitContext("h264", 1920, 1080, Some("YUV420P"), None, _ => Built("appsrc name=src ! appsink name=sink"));
    p.Enqueue(pending);
    p.Clean();
    assert p.GetInfo() == ModuleInfo() && p.IsClosed() && p.frameQueue == [pending];
    p.Clean();
    assert p.GetInfo().Keys == {"version"} && p.Repr() == UNINITIALIZED_REPR;
  }

  /** A VA-API pipeline acknowledges a context request itself and delegates the rest. */
  method VaapiContextRequest() {
    var p := new VideoPipeline();
    var head := "appsrc name=src ! ";
    var desc := head + VAAPI_MARKER + "h264enc ! appsink name=sink";
    var _ := p.InitContext("h264", 1920, 1080, Some("NV12"), None, _ => Built(desc));
    assert desc[|head|..|head| + |VAAPI_MARKER|] == VAAPI_MARKER;
    assert OccursAt(desc, VAAPI_MARKER, |head|);
    assert p.OnMessage(NeedContext, Error) == Acknowledged;
    assert p.OnMessage(NeedContext, Error).Reply() == Ok;
    assert p.OnMessage(StateChanged, Error) == Delegated(Error);
  }
}
