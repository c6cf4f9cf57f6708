/**
 noctx.go: the request identifier carried in the X-Request-Id header, and
 the startWriter behind the Duration middleware, which stamps
 X-Request-Duration on the first WriteHeader or Write.
 */
module NoCtx {
  import opened Wrappers
  import opened Text
  import opened Http
  import opened Writers
  import opened Uuid
  import PushMethods

  const DurationHeader: string := "X-Request-Duration"

  /** 100 * time.Microsecond, in nanoseconds. */
  const Granularity: int := 100000

  /** The request's header now carries the identifier's canonical text; nothing else changes. */
  function SetRequestID(r: Request, u: UUID): (r': Request)
    ensures Get(r'.header, RequestIdHeader) == Format(u)
    ensures forall k :: k != RequestIdHeader ==> Get(r'.header, k) == Get(r.header, k)
    ensures r' == r.(header := r'.header)
  {
    r.(header := Set(r.header, RequestIdHeader, Format(u)))
  }

  /** The identifier parsed from X-Request-Id; (Nil, false) when the header is empty or unparsable. */
  function GetRequestID(r: Request): (res: (UUID, bool))
    ensures res.1 <==> Parse(Get(r.header, RequestIdHeader)).Some?
    ensures res.1 ==> Parse(Get(r.header, RequestIdHeader)) == Some(res.0)
    ensures !res.1 ==> res.0 == Nil
  {
    var rid := Get(r.header, RequestIdHeader);
    if rid != "" then
      match Parse(rid)
      case Some(u) => (u, true)
      case None => (Nil, false)
    else (Nil, false)
  }

  /** Get after Set gives back the identifier that was set. */
  lemma GetAfterSet(r: Request, u: UUID)
    ensures GetRequestID(SetRequestID(r, u)) == (u, true)
  {
    ParseFormat(u);
  }

  /** A request without the header has no identifier. */
  lemma GetWithoutHeader(r: Request)
    requires Get(r.header, RequestIdHeader) == ""
    ensures GetRequestID(r) == (Nil, false)
  {
  }

  /** An elapsed time rounded toward zero to a whole number of 100µs. */
  function TruncatedDuration(elapsed: int): (d: int)
    ensures d % Granularity == 0
    ensures elapsed >= 0 ==> 0 <= d <= elapsed < d + Granularity
    ensures elapsed < 0 ==> elapsed <= d <= 0
  {
    GoDiv(elapsed, Granularity) * Granularity
  }

  /** startWriter.duration(): the time since monoStart, truncated to 100µs (before rendering). */
  function DurationAt(monoStart: uint64, now: uint64): (d: int)
    ensures monoStart <= now && now - monoStart < 0x8000_0000_0000_0000 ==>
              d % Granularity == 0 && d <= now - monoStart < d + Granularity
  {
    TruncatedDuration(MonoSince(now, monoStart))
  }

  /** A handler's call together with the monotonic clock reading at which it was made. */
  datatype Timed = Timed(ev: Event, at: uint64)

  function Events(tt: seq<Timed>): (t: seq<Event>)
    ensures |t| == |tt|
    ensures forall i :: 0 <= i < |tt| ==> t[i] == tt[i].ev
  {
    if tt == [] then [] else [tt[0].ev] + Events(tt[1..])
  }

  /** The header set made on the first write; `render` is time.Duration's String method. */
  function DurationSet(monoStart: uint64, now: uint64, render: int -> string): Event
  {
    SetHeader(DurationHeader, render(DurationAt(monoStart, now)))
  }

  function StartInject(s: StartWriter, now: uint64, render: int -> string): (r: StartWriter)
    ensures r.wroteHeader && r.monoStart == s.monoStart
    ensures !s.wroteHeader ==> r.w == Apply(s.w, DurationSet(s.monoStart, now, render)).0
    ensures s.wroteHeader ==> r == s
  {
    if !s.wroteHeader then
      s.(w := s.w.(header := Set(s.w.header, DurationHeader, render(DurationAt(s.monoStart, now)))), wroteHeader := true)
    else s
  }

  /** startWriter.WriteHeader: stamp the duration if not yet done, then delegate. */
  function StartWriteHeader(s: StartWriter, code: int, now: uint64, render: int -> string): (r: StartWriter)
    ensures r.wroteHeader && r.monoStart == s.monoStart
    ensures !s.wroteHeader && s.w.wire.None? ==>
              r.w.wire == Some(Wire(code, Set(s.w.header, DurationHeader, render(DurationAt(s.monoStart, now)))))
    ensures s.wroteHeader ==> r.w == SinkWriteHeader(s.w, code)
    ensures r.w.body == s.w.body
  {
    var s1 := StartInject(s, now, render);
    s1.(w := SinkWriteHeader(s1.w, code))
  }

  /** startWriter.Write: stamp the duration if not yet done, then delegate and return the count. */
  function StartWrite(s: StartWriter, taken: seq<byte>, now: uint64, render: int -> string): (r: (StartWriter, nat))
    ensures r.0.wroteHeader && r.0.monoStart == s.monoStart
    ensures !s.wroteHeader && s.w.wire.None? ==>
              r.0.w.wire == Some(Wire(StatusOK, Set(s.w.header, DurationHeader, render(DurationAt(s.monoStart, now)))))
    ensures s.wroteHeader ==> r.0.w == SinkWrite(s.w, taken)
    ensures r.1 == |taken|
    ensures r.0.w.body == s.w.body + taken
  {
    var s1 := StartInject(s, now, render);
    (s1.(w := SinkWrite(s1.w, taken)), |taken|)
  }

  /** One call on the startWriter; Header() is the wrapped writer's header, Push is push.go's. */
  function StartStep(s: StartWriter, te: Timed, render: int -> string): (StartWriter, Reply)
  {
    match te.ev
    case WriteHeader(code) => (StartWriteHeader(s, code, te.at, render), Done)
    case Write(taken, _) =>
      var (s', n) := StartWrite(s, taken, te.at, render);
      (s', Wrote(n))
    case Push(target, opts) =>
      var (s', err) := PushMethods.StartWriterPush(s, target, opts);
      (s', Pushed(err))
    case _ => (s.(w := Apply(s.w, te.ev).0), Done)
  }

  function RunStart(s: StartWriter, tt: seq<Timed>, render: int -> string): StartWriter
    decreases |tt|
  {
    if tt == [] then s else RunStart(StartStep(s, tt[0], render).0, tt[1..], render)
  }

  /** After the header is stamped every call is only delegated. */
  lemma {:induction false} RunStartCommitted(s: StartWriter, tt: seq<Timed>, render: int -> string)
    requires s.wroteHeader
    ensures RunStart(s, tt, render) == s.(w := RunSink(s.w, Events(tt)))
    decreases |tt|
  {
    if tt != [] {
      var e := tt[0].ev;
      if e.Push? {
        PushMethods.PushIsDirectPush(s.w, e.target, e.opts);
      }
      assert Events(tt)[1..] == Events(tt[1..]);
      RunStartCommitted(StartStep(s, tt[0], render).0, tt[1..], render);
    }
  }

  /**
   From a fresh startWriter, the calls reach the wrapped writer unchanged,
   with one header set inserted just before the first write, carrying the
   duration measured at that write.
   */
  lemma {:induction false} RunStartFresh(s: StartWriter, tt: seq<Timed>, render: int -> string)
    requires !s.wroteHeader
    ensures RunStart(s, tt, render).wroteHeader == HasWrite(Events(tt))
    ensures RunStart(s, tt, render).monoStart == s.monoStart
    ensures !HasWrite(Events(tt)) ==> RunStart(s, tt, render).w == RunSink(s.w, Events(tt))
    ensures HasWrite(Events(tt)) ==>
              RunStart(s, tt, render).w
              == RunSink(s.w, Injected(Events(tt), DurationSet(s.monoStart, tt[FirstWrite(Events(tt))].at, render)))
    decreases |tt|
  {
    if tt != [] {
      var t := Events(tt);
      var e := tt[0].ev;
      assert t[1..] == Events(tt[1..]);
      var s1 := StartStep(s, tt[0], render).0;
      HasWriteCons(t);
      if IsWrite(e) {
        var stamp := DurationSet(s.monoStart, tt[0].at, render);
        RunStartCommitted(s1, tt[1..], render);
        InjectedHead(t, stamp);
        RunSinkAppend(s.w, [stamp, e], t[1..]);
      } else {
        if e.Push? {
          PushMethods.PushIsDirectPush(s.w, e.target, e.opts);
        }
        assert s1 == s.(w := Apply(s.w, e).0);
        RunStartFresh(s1, tt[1..], render);
        if HasWrite(t) {
          var k := FirstWrite(t[1..]);
          var stamp := DurationSet(s.monoStart, tt[k + 1].at, render);
          InjectedCons(t, stamp);
          assert tt[1..][k] == tt[k + 1];
        }
      }
    }
  }

  /**
   Duration: the handler's calls reach the writer with X-Request-Duration set
   once, just before the first write, to the duration measured then. A
   handler that never writes gets no header at all.
   */
  function Duration(w: Sink, monoStart: uint64, tt: seq<Timed>, render: int -> string): (r: Sink)
    ensures HasWrite(Events(tt)) ==>
              r == RunSink(w, Injected(Events(tt), DurationSet(monoStart, tt[FirstWrite(Events(tt))].at, render)))
    ensures !HasWrite(Events(tt)) ==> r == RunSink(w, Events(tt))
  {
    RunStartFresh(StartWriter(w, monoStart, false), tt, render);
    RunStart(StartWriter(w, monoStart, false), tt, render).w
  }

  /** When the handler writes, the client receives the duration measured at its first write. */
  lemma DurationDelivered(w: Sink, monoStart: uint64, tt: seq<Timed>, render: int -> string)
    requires w.wire.None?
    requires HasWrite(Events(tt))
    ensures Get(Delivered(Duration(w, monoStart, tt, render)), DurationHeader)
            == render(DurationAt(monoStart, tt[FirstWrite(Events(tt))].at))
  {
    var k := FirstWrite(Events(tt));
    InjectedIsDelivered(w, Events(tt), DurationHeader, render(DurationAt(monoStart, tt[k].at)));
  }
}
