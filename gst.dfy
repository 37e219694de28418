/**
 * The values the pipeline exchanges with the GStreamer library: flow
 * statuses returned by buffer operations and the kinds of bus messages.
 * The library itself is not part of this model.
 */
module Gst {

  /** GStreamer's flow statuses (`Gst.FlowReturn`); `Ok` is `GST_FLOW_OK`. */
  datatype FlowReturn = Ok | NotLinked | Flushing | Eos | NotNegotiated | Error | NotSupported

  /**
   * The kinds of bus message (`Gst.MessageType`) the model distinguishes;
   * `NeedContext` is `NEED_CONTEXT`, every other kind the filter treats alike.
   */
  datatype MessageType =
    | NeedContext
    | HaveContext
    | EndOfStream
    | ErrorMessage
    | Warning
    | Info
    | StateChanged
    | Element
    | Latency
    | AsyncDone
}
