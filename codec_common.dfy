/**
 * The shared part of xpra's GStreamer video encoders and decoders: a
 * `VideoPipeline` that hands one frame at a time to a GStreamer pipeline and
 * waits for the pipeline's output on a FIFO queue, together with the
 * module-level version information.
 *
 * The GStreamer library, the `Pipeline` base class and the subclasses that
 * build the actual pipeline are outside this model; what they return enters
 * the model as parameters.
 */
module CodecCommon {
  import opened Wrappers
  import opened PyText
  import opened Gst

  /** The version the module reports (`get_version`). */
  const VERSION: (int, int) := (5, 0)

  /** What an object with no colorspace says about itself. */
  const UNINITIALIZED_REPR := "gstreamer(uninitialized)"

  /** The marker of the VA-API family of elements in a pipeline description. */
  const VAAPI_MARKER := "vaapi"

  /** The keys `get_info` reports for a pipeline that has a colorspace. */
  const READY_INFO_KEYS: set<string> := {"version", "frames", "width", "height", "encoding", "colorspace"}

  /** The values that occur in an info dictionary. */
  datatype InfoValue = IntValue(n: int) | StrValue(s: string) | VersionValue(major: int, minor: int)

  /** The module-level `get_info`: only the version. */
  function ModuleInfo(): (info: map<string, InfoValue>)
    ensures info.Keys == {"version"}
    ensures info["version"] == VersionValue(5, 0)
  {
    map["version" := VersionValue(VERSION.0, VERSION.1)]
  }

  /** An opaque media buffer: an input image or an output produced by the pipeline. */
  datatype Buffer = Buffer(bytes: seq<bv8>)

  /**
   * What building the GStreamer pipeline (`create_pipeline`) does: it either
   * builds a pipeline with the given textual description, or raises, leaving
   * behind whatever description it had set before raising.
   */
  datatype FactoryOutcome = Built(description: string) | Raised(description: string, error: string)

  /**
   * The base class's `create_pipeline`, which every concrete pipeline must
   * override: it always raises, without setting a description.
   */
  function BaseCreatePipeline(options: map<string, string>): (r: FactoryOutcome)
    ensures r.Raised? && r.description == ""
  {
    Raised("", "NotImplementedError")
  }

  /** How `init_context` ends: normally, or with the exception raised while building the pipeline. */
  datatype InitOutcome = Started | Failed(error: string)

  /**
   * What the bus-message filter does with a message: acknowledge it itself,
   * or hand it to the base class's handler, whose reply it returns.
   */
  datatype BusOutcome = Acknowledged | Delegated(reply: FlowReturn) {
    /** The flow status `on_message` returns. */
    function Reply(): FlowReturn {
      match this
      case Acknowledged => Ok
      case Delegated(r) => r
    }
  }

  /** One encode or decode session driven through a GStreamer pipeline. */
  class VideoPipeline {
    var encoding: string
    var width: int
    var height: int
    /** `None` until `InitContext` runs and again after `Clean`; it alone decides readiness. */
    var colorspace: Option<string>
    /** The processed-frame counter; nothing in this class increments it. */
    var frames: nat
    /** Outputs delivered by the pipeline and not yet returned, oldest first. */
    var frameQueue: seq<Buffer>
    /** The textual description of the pipeline that was built. */
    var pipelineStr: string
    var dstFormats: seq<string>

    /**
     * A fresh object. Python's class assigns these fields only in
     * `init_context` and `clean`; the starting values here (no colorspace,
     * empty strings, zero sizes, an empty queue) are the model's own
     * assumption.
     */
    constructor ()
      ensures colorspace == None && encoding == "" && width == 0 && height == 0
      ensures frames == 0 && frameQueue == [] && pipelineStr == "" && dstFormats == []
    {
      encoding, width, height, colorspace := "", 0, 0, None;
      frames, frameQueue, pipelineStr, dstFormats := 0, [], "", [];
    }

    /** `is_ready`: the pipeline has a colorspace. */
    predicate IsReady()
      reads this
    {
      colorspace.Some?
    }

    /** `is_closed`: the pipeline has no colorspace, so it is closed exactly when it is not ready. */
    function IsClosed(): (closed: bool)
      reads this
      ensures closed <==> !IsReady()
    {
      colorspace.None?
    }

    /**
     * `init_context`: records the session's parameters, resets the counter
     * and the queue, clears the description and builds the pipeline through
     * `createPipeline` (the subclass's `create_pipeline`) with the options,
     * an absent option map counting as empty. The fields are assigned before
     * the pipeline is built, so a factory that raises leaves them set and
     * the object ready whenever a colorspace was given; the description is
     * then whatever the factory set before raising (nothing, for the base
     * class's factory).
     */
    method InitContext(encoding: string, width: int, height: int, colorspace: Option<string>,
                       options: Option<map<string, string>>,
                       createPipeline: map<string, string> -> FactoryOutcome)
      returns (outcome: InitOutcome)
      modifies this`encoding, this`width, this`height, this`colorspace, this`frames, this`frameQueue, this`pipelineStr
      ensures this.encoding == encoding && this.width == width && this.height == height
      ensures this.colorspace == colorspace && (IsReady() <==> colorspace.Some?)
      ensures frames == 0 && frameQueue == []
      ensures match createPipeline(if options.None? then map[] else options.value)
              case Built(d) => outcome == Started && pipelineStr == d
              case Raised(d, e) => outcome == Failed(e) && pipelineStr == d
    {
      var opts := if options.None? then map[] else options.value;
      this.encoding := encoding;
      this.width := width;
      this.height := height;
      this.colorspace := colorspace;
      frames := 0;
      frameQueue := [];
      pipelineStr := "";
      match createPipeline(opts) {
        case Raised(d, e) =>
          pipelineStr := d;
          outcome := Failed(e);
        case Built(d) =>
          pipelineStr := d;
          outcome := Started;
      }
    }

    /**
     * The filter of `on_message`: a NEED_CONTEXT message is acknowledged
     * when the pipeline description mentions VA-API; every other message is
     * passed to the base class's handler, whose reply is `baseReply`.
     */
    function OnMessage(msg: MessageType, baseReply: FlowReturn): (r: BusOutcome)
      reads this
      ensures r.Acknowledged? <==> msg == NeedContext && Contains(pipelineStr, VAAPI_MARKER)
      ensures r.Delegated? ==> r.reply == baseReply
    {
      if msg == NeedContext && Find(pipelineStr, VAAPI_MARKER) >= 0 then Acknowledged
      else Delegated(baseReply)
    }

    /** How long `process_buffer` waits for an output: longer before the first frame. */
    function QueueTimeout(): (t: nat)
      reads this
      ensures t == 2 <==> frames == 0
      ensures t == 1 <==> frames != 0
    {
      if frames == 0 then 2 else 1
    }

    /**
     * `process_buffer`: `pushed` is the status GStreamer returned for pushing
     * `buf` into the pipeline. A refused push returns `None` at once; after an
     * accepted push the oldest queued output is returned, or `None` when the
     * queue is empty (the wait times out). `timeout` is the wait bound used,
     * `None` when the queue was not consulted.
     */
    method ProcessBuffer(buf: Buffer, pushed: FlowReturn) returns (r: Option<Buffer>, timeout: Option<nat>)
      modifies this`frameQueue
      ensures frames == old(frames)
      ensures pushed != Ok ==> r == None && timeout == None && frameQueue == old(frameQueue)
      ensures pushed == Ok ==> timeout == Some(old(QueueTimeout()))
      ensures pushed == Ok && old(frameQueue) == [] ==> r == None && frameQueue == []
      ensures pushed == Ok && old(frameQueue) != [] ==> r == Some(old(frameQueue)[0]) && frameQueue == old(frameQueue)[1..]
      ensures old(frameQueue) == (if r.Some? then [r.value] else []) + frameQueue
    {
      if pushed != Ok {
        return None, None;
      }
      timeout := Some(QueueTimeout());
      if frameQueue == [] {
        r := None;
      } else {
        r := Some(frameQueue[0]);
        frameQueue := frameQueue[1..];
      }
    }

    /**
     * The producer side of the queue: the callback registered for the
     * pipeline's "new-sample" signal, which is defined outside this file,
     * appends each output it receives.
     */
    method Enqueue(buf: Buffer)
      modifies this`frameQueue
      ensures frameQueue == old(frameQueue) + [buf]
    {
      frameQueue := frameQueue + [buf];
    }

    /**
     * `get_info`: the module's information and, when the pipeline has a
     * colorspace, its counter, geometry, encoding and colorspace.
     */
    function GetInfo(): (info: map<string, InfoValue>)
      reads this
      ensures "version" in info && info["version"] == ModuleInfo()["version"]
      ensures IsClosed() ==> info == ModuleInfo()
      ensures IsReady() ==> info.Keys == READY_INFO_KEYS
      ensures IsReady() ==> info["frames"] == IntValue(frames) && info["width"] == IntValue(width)
                            && info["height"] == IntValue(height) && info["encoding"] == StrValue(encoding)
                            && info["colorspace"] == StrValue(colorspace.value)
    {
      var info := ModuleInfo();
      if colorspace.None? then info
      else info + map[
        "frames" := IntValue(frames),
        "width" := IntValue(width),
        "height" := IntValue(height),
        "encoding" := StrValue(encoding),
        "colorspace" := StrValue(colorspace.value),
        "version" := VersionValue(VERSION.0, VERSION.1)]
    }

    /**
     * `__repr__`: "gstreamer(uninitialized)" without a colorspace, otherwise
     * the colorspace and the geometry, as in "gstreamer(YUV420P - 1920x1080)".
     */
    function Repr(): (s: string)
      reads this
      ensures |s| > 10 && s[..10] == "gstreamer("
      ensures IsReady() ==> OccursAt(s, colorspace.value, 10)
    {
      if colorspace.None? then UNINITIALIZED_REPR
      else "gstreamer(" + colorspace.value + " - " + IntToDecimal(width) + "x" + IntToDecimal(height) + ")"
    }

    /**
     * `clean`: after the base class's teardown, forgets the session's
     * parameters and resets the counter, which closes the pipeline whatever
     * its state was. The queue and the description are left as they were.
     */
    method Clean()
      modifies this`width, this`height, this`colorspace, this`encoding, this`dstFormats, this`frames
      ensures width == 0 && height == 0 && colorspace == None && encoding == ""
      ensures dstFormats == [] && frames == 0
      ensures IsClosed() && GetInfo() == ModuleInfo()
      ensures frameQueue == old(frameQueue) && pipelineStr == old(pipelineStr)
    {
      width := 0;
      height := 0;
      colorspace := None;
      encoding := "";
      dstFormats := [];
      frames := 0;
    }
  }

  /** The description an object gives of itself tells whether it is ready. */
  lemma ReprShowsReadiness(p: VideoPipeline)
    ensures p.Repr() == UNINITIALIZED_REPR <==> !p.IsReady()
  {
    if p.IsReady() {
      var s := p.Repr();
      assert s[10 + |p.colorspace.value|] == ' ';
      assert ' ' !in UNINITIALIZED_REPR;
    }
  }

  /**
   * Two ready objects with the same colorspace that describe themselves
   * alike have the same geometry: the description loses no dimension.
   */
  lemma ReprDeterminesGeometry(p: VideoPipeline, q: VideoPipeline)
    requires p.IsReady() && p.colorspace == q.colorspace
    requires p.Repr() == q.Repr()
    ensures p.width == q.width && p.height == q.height
  {
    var head := "gstreamer(" + p.colorspace.value + " - ";
    var w, h := IntToDecimal(p.width), IntToDecimal(p.height);
    var w', h' := IntToDecimal(q.width), IntToDecimal(q.height);
    assert p.Repr() == head + (w + ['x'] + (h + ")"));
    assert q.Repr() == head + (w' + ['x'] + (h' + ")"));
    assert w + ['x'] + (h + ")") == p.Repr()[|head|..];
    assert w' + ['x'] + (h' + ")") == q.Repr()[|head|..];
    assert 'x' !in w && 'x' !in w';
    SplitAtSeparator(w, h + ")", w', h' + ")", 'x');
    assert h == (h + ")")[..|h|];
    assert h' == (h' + ")")[..|h'|];
    IntToDecimalInjective(p.width, q.width);
    IntToDecimalInjective(p.height, q.height);
  }

  /**
   * The description of a ready object spells out its geometry: after
   * "gstreamer(", the colorspace and " - ", the text up to its first 'x'
   * reads back as the width, and the rest, without its closing ')', reads
   * back as the height.
   */
  lemma ReprGeometryText(p: VideoPipeline)
    requires p.IsReady()
    ensures var head := "gstreamer(" + p.colorspace.value + " - ";
            var s := p.Repr();
            |head| < |s| && s[..|head|] == head && s[|s| - 1] == ')' &&
            var rest := s[|head|..|s| - 1];
            var k := Find(rest, "x");
            0 <= k && ParseDecimal(rest[..k]) == Some(p.width) && ParseDecimal(rest[k + 1..]) == Some(p.height)
  {
    var head := "gstreamer(" + p.colorspace.value + " - ";
    var s := p.Repr();
    var w, h := IntToDecimal(p.width), IntToDecimal(p.height);
    assert s == head + (w + ['x'] + h) + ")";
    var rest := s[|head|..|s| - 1];
    assert rest == w + ['x'] + h;
    assert 'x' !in w;
    FindSeparator(w, h, 'x');
    assert rest[..|w|] == w;
    assert rest[|w| + 1..] == h;
    IntToDecimalRoundTrip(p.width);
    IntToDecimalRoundTrip(p.height);
  }
}
