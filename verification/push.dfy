/**
 push.go: the capability probe behind every decorator's Push method, and
 the three Push methods, each forwarding to the wrapped writer.
 */
module PushMethods {
  import opened Wrappers
  import opened Http
  import opened Writers

  /**
   Returns what the writer's own Push returns when it implements
   http.Pusher; otherwise reports http.ErrNotSupported and leaves the writer
   alone. The target and options reach the writer unchanged.
   */
  function Push(w: Sink, target: string, opts: Option<PushOptions>): (r: (Sink, PushError))
    ensures w.caps.pusher ==> r.1 == w.pushReply
    ensures !w.caps.pusher ==> r.1 == NotSupported
    ensures r.0.pushed == w.pushed + (if r.1 == NoError then [PushRequest(target, opts)] else [])
    ensures r.0 == w.(pushed := r.0.pushed)
  {
    if w.caps.pusher then (SinkPush(w, target, opts), w.pushReply) else (w, NotSupported)
  }

  /** A push through the probe is the same as the handler pushing on the writer directly. */
  lemma PushIsDirectPush(w: Sink, target: string, opts: Option<PushOptions>)
    ensures Push(w, target, opts).0 == Apply(w, Http.Push(target, opts)).0
    ensures Apply(w, Http.Push(target, opts)).1 == Pushed(Push(w, target, opts).1)
  {
  }

  function StartWriterPush(s: StartWriter, target: string, opts: Option<PushOptions>): (r: (StartWriter, PushError))
    ensures r.0.monoStart == s.monoStart && r.0.wroteHeader == s.wroteHeader
    ensures (r.0.w, r.1) == Push(s.w, target, opts)
  {
    var (w', err) := Push(s.w, target, opts);
    (s.(w := w'), err)
  }

  function ResponseLoggerPush(l: ResponseLogger, target: string, opts: Option<PushOptions>): (r: (ResponseLogger, PushError))
    ensures r.0.status == l.status && r.0.size == l.size
    ensures (r.0.w, r.1) == Push(l.w, target, opts)
  {
    var (w', err) := Push(l.w, target, opts);
    (l.(w := w'), err)
  }

  function ServerWriterPush(s: ServerWriter, target: string, opts: Option<PushOptions>): (r: (ServerWriter, PushError))
    ensures r.0.name == s.name && r.0.wroteHeader == s.wroteHeader
    ensures (r.0.w, r.1) == Push(s.w, target, opts)
  {
    var (w', err) := Push(s.w, target, opts);
    (s.(w := w'), err)
  }
}
