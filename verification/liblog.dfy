/**
 lib.go, logging half: the responseLogger that remembers the status and
 counts bytes, the shape makeLogger picks for a writer's capabilities, and
 the access-log record logHandler writes after the inner handler returns.
 */
module LibLog {
  import opened Wrappers
  import opened Text
  import opened Http
  import opened Writers
  import Lib
  import Uuid

  const ForwardedFor: string := "X-Forwarded-For"
  const Millisecond: int := 1000000
  const HalfMillisecond: int := 500000

  /** The eight fixed keys every access-log record starts with, in order. */
  const BaseKeys: seq<string> := ["method", "path", "time", "bytes", "status", "remote_addr", "host", "user_agent"]

  /**
   responseLogger.Write: a first write with no status recorded records 200;
   the byte count the writer reports is added to the size and returned.
   */
  function LoggerWrite(l: ResponseLogger, taken: seq<byte>): (r: (ResponseLogger, nat))
    ensures r.1 == |taken| && r.0.size == l.size + r.1
    ensures r.0.status == (if l.status == 0 then StatusOK else l.status)
    ensures r.0.w.body == l.w.body + taken
    ensures r.0.w.header == l.w.header && r.0.w.pushed == l.w.pushed
  {
    var st := if l.status == 0 then StatusOK else l.status;
    var w' := SinkWrite(l.w, taken);
    (ResponseLogger(w', st, l.size + |taken|), |taken|)
  }

  /** responseLogger.WriteHeader: delegates, then records the code whatever the writer did with it. */
  function LoggerWriteHeader(l: ResponseLogger, code: int): (r: ResponseLogger)
    ensures r.status == code && r.size == l.size
    ensures r.w.body == l.w.body && r.w.header == l.w.header
    ensures l.w.wire.Some? ==> r.w == l.w
  {
    ResponseLogger(SinkWriteHeader(l.w, code), code, l.size)
  }

  /** responseLogger.Status: the recorded status, with 200 standing in for none. */
  function Status(l: ResponseLogger): (s: int)
  {
    if l.status == 0 then StatusOK else l.status
  }

  /** responseLogger.Push (lib.go): forwards through lib.go's probe; status and size are untouched. */
  function ResponseLoggerPush(l: ResponseLogger, target: string, opts: Option<PushOptions>): (r: (ResponseLogger, PushError))
    ensures r.0.status == l.status && r.0.size == l.size
    ensures (r.0.w, r.1) == Lib.Push(l.w, target, opts)
  {
    var (w', err) := Lib.Push(l.w, target, opts);
    (l.(w := w'), err)
  }

  /**
   One call on the logger makeLogger returned. When its shape hides Push the
   handler's `w.(http.Pusher)` probe fails and it gets ErrNotSupported
   without reaching the writer.
   */
  function LoggerStep(l: ResponseLogger, e: Event, pushExposed: bool): (ResponseLogger, Reply)
  {
    match e
    case WriteHeader(code) => (LoggerWriteHeader(l, code), Done)
    case Write(taken, _) =>
      var (l', n) := LoggerWrite(l, taken);
      (l', Wrote(n))
    case Push(target, opts) =>
      if pushExposed then
        var (l', err) := ResponseLoggerPush(l, target, opts);
        (l', Pushed(err))
      else (l, Pushed(NotSupported))
    case _ => (l.(w := Apply(l.w, e).0), Done)
  }

  function RunLogger(l: ResponseLogger, t: seq<Event>, pushExposed: bool): ResponseLogger
    decreases |t|
  {
    if t == [] then l else RunLogger(LoggerStep(l, t[0], pushExposed).0, t[1..], pushExposed)
  }

  /** The code of the last WriteHeader call in a trace, if there is one. */
  function LastHeaderCode(t: seq<Event>): Option<int>
    decreases |t|
  {
    if t == [] then None
    else if t[|t| - 1].WriteHeader? then Some(t[|t| - 1].code)
    else LastHeaderCode(t[..|t| - 1])
  }

  /** The trace with every Push call dropped: what reaches the writer when Push is hidden. */
  function NoPush(t: seq<Event>): (r: seq<Event>)
    ensures forall i :: 0 <= i < |r| ==> !r[i].Push?
    ensures |r| <= |t|
  {
    if t == [] then [] else (if t[0].Push? then [] else [t[0]]) + NoPush(t[1..])
  }

  lemma {:induction false} RunLoggerAppend(l: ResponseLogger, a: seq<Event>, b: seq<Event>, p: bool)
    ensures RunLogger(l, a + b, p) == RunLogger(RunLogger(l, a, p), b, p)
    decreases |a|
  {
    if a == [] {
      assert a + b == b;
    } else {
      assert (a + b)[1..] == a[1..] + b;
      RunLoggerAppend(LoggerStep(l, a[0], p).0, a[1..], b, p);
    }
  }

  /** Size() is the starting size plus every byte count the writer reported. */
  lemma {:induction false} RunLoggerSize(l: ResponseLogger, t: seq<Event>, p: bool)
    ensures RunLogger(l, t, p).size == l.size + Written(t)
    decreases |t|
  {
    if t != [] {
      RunLoggerSize(LoggerStep(l, t[0], p).0, t[1..], p);
    }
  }

  /** Size() never decreases as the handler makes more calls. */
  lemma SizeMonotone(l: ResponseLogger, a: seq<Event>, b: seq<Event>, p: bool)
    ensures RunLogger(l, a, p).size <= RunLogger(l, a + b, p).size
  {
    RunLoggerAppend(l, a, b, p);
    RunLoggerSize(RunLogger(l, a, p), b, p);
  }

  /**
   Status() after the handler returns: the last WriteHeader code (200 for a
   zero code), otherwise the status before the calls, with 200 for none.
   */
  lemma {:induction false} RunLoggerStatus(l: ResponseLogger, t: seq<Event>, p: bool)
    ensures Status(RunLogger(l, t, p)) ==
              match LastHeaderCode(t)
              case Some(c) => (if c == 0 then StatusOK else c)
              case None => Status(l)
    decreases |t|
  {
    if t != [] {
      var a, e := t[..|t| - 1], t[|t| - 1];
      assert t == a + [e];
      RunLoggerAppend(l, a, [e], p);
      RunLoggerStatus(l, a, p);
      var la := RunLogger(l, a, p);
      assert RunLogger(la, [e], p) == LoggerStep(la, e, p).0;
    }
  }

  /** A fresh logger whose handler makes no call reports 200 and size 0. */
  lemma FreshStatus(w: Sink, p: bool)
    ensures Status(RunLogger(ResponseLogger(w, 0, 0), [], p)) == StatusOK
    ensures RunLogger(ResponseLogger(w, 0, 0), [], p).size == 0
  {
  }

  /** One exposed call reaches the writer exactly as it would have directly. */
  lemma StepTransparent(l: ResponseLogger, e: Event, p: bool)
    requires p || !e.Push?
    ensures LoggerStep(l, e, p).0.w == Apply(l.w, e).0
  {
  }

  lemma NoPushCons(e: Event, t: seq<Event>)
    ensures NoPush([e] + t) == (if e.Push? then [] else [e]) + NoPush(t)
  {
    assert ([e] + t)[0] == e && ([e] + t)[1..] == t;
  }

  /**
   The logger is transparent: the writer sees exactly the handler's calls,
   minus the pushes when the logger's shape hides Push.
   */
  lemma {:induction false} RunLoggerTransparent(l: ResponseLogger, t: seq<Event>, p: bool)
    ensures RunLogger(l, t, p).w == RunSink(l.w, if p then t else NoPush(t))
    decreases |t|
  {
    if t != [] {
      var l1 := LoggerStep(l, t[0], p).0;
      assert RunLogger(l, t, p) == RunLogger(l1, t[1..], p);
      RunLoggerTransparent(l1, t[1..], p);
      var rest := if p then t[1..] else NoPush(t[1..]);
      assert RunLogger(l1, t[1..], p).w == RunSink(l1.w, rest);
      assert t == [t[0]] + t[1..];
      NoPushCons(t[0], t[1..]);
      if p || !t[0].Push? {
        StepTransparent(l, t[0], p);
        var u := [t[0]] + rest;
        assert (if p then t else NoPush(t)) == u;
        assert u[0] == t[0] && u[1..] == rest;
        assert RunSink(l.w, u) == RunSink(Apply(l.w, t[0]).0, rest);
      } else {
        assert l1 == l;
        assert NoPush(t) == rest;
      }
    }
  }

  /**
   The recorded status can differ from the one the client receives: after a
   body write has committed 200, a later WriteHeader(404) is ignored by the
   writer but Status() reports 404.
   */
  lemma StatusAfterCommit(caps: Caps, reply: PushError)
    ensures var l := RunLogger(ResponseLogger(NewSink(caps, reply), 0, 0), [Write([104, 105], []), WriteHeader(404)], true);
            Status(l) == 404 && DeliveredStatus(l.w) == StatusOK && l.size == 2
  {
    var l0 := ResponseLogger(NewSink(caps, reply), 0, 0);
    var t := [Write([104, 105], []), WriteHeader(404)];
    assert t[1..][1..] == [];
  }

  /** The concrete type makeLogger returns. */
  datatype LoggerShape =
    | Plain                          // *responseLogger
    | HijackLogger                   // *hijackLogger
    | HijackCloseNotifier(inner: LoggerShape)   // hijackCloseNotifier{logger, h, c}
    | CloseNotifyWriter(inner: LoggerShape)     // *closeNotifyWriter{logger, c}

  /**
   The interfaces a shape satisfies, read off its method set. The two
   close-notify wrappers embed the loggingResponseWriter interface, which has
   neither Push nor Hijack, so they hide Push, and only hijackCloseNotifier,
   which embeds an http.Hijacker besides, can be hijacked; every shape has
   Flush. Whether *hijackLogger has
   a Hijack method depends on code outside this model: `hijackLoggerHijacks`.
   */
  function Exposes(shape: LoggerShape, hijackLoggerHijacks: bool): Caps
  {
    match shape
    case Plain => Caps(true, false, false, true)
    case HijackLogger => Caps(true, false, hijackLoggerHijacks, true)
    case HijackCloseNotifier(_) => Caps(false, true, true, true)
    case CloseNotifyWriter(_) => Caps(false, true, false, true)
  }

  /**
   makeLogger: the logger advertises CloseNotify exactly when the writer has
   it, Hijack exactly when the writer has it and *hijackLogger implements it,
   Flush always, and Push only when the writer is not a CloseNotifier.
   */
  function MakeLogger(caps: Caps, hijackLoggerHijacks: bool): (shape: LoggerShape)
    ensures Exposes(shape, hijackLoggerHijacks).closeNotifier <==> caps.closeNotifier
    ensures Exposes(shape, hijackLoggerHijacks).hijacker <==> caps.hijacker && hijackLoggerHijacks
    ensures Exposes(shape, hijackLoggerHijacks).pusher <==> !caps.closeNotifier
    ensures Exposes(shape, hijackLoggerHijacks).flusher
  {
    var logger := if caps.hijacker then HijackLogger else Plain;
    var ok1 := Exposes(logger, hijackLoggerHijacks).hijacker;
    var ok2 := caps.closeNotifier;
    if ok1 && ok2 then HijackCloseNotifier(logger)
    else if ok2 then CloseNotifyWriter(logger)
    else logger
  }

  /**
   getRemoteIP: RemoteAddr when X-Forwarded-For is empty, otherwise the
   header up to (not including) its first comma, untrimmed.
   */
  function RemoteIP(r: Request): (ip: string)
    ensures Get(r.header, ForwardedFor) == "" ==> ip == r.remoteAddr
    ensures Get(r.header, ForwardedFor) != "" ==>
              ip <= Get(r.header, ForwardedFor) && ',' !in ip
              && (|ip| < |Get(r.header, ForwardedFor)| ==> Get(r.header, ForwardedFor)[|ip|] == ',')
  {
    var fwd := Get(r.header, ForwardedFor);
    if fwd == "" then r.remoteAddr else BeforeFirst(fwd, ',')
  }

  /**
   timeSinceMs: elapsed nanoseconds to milliseconds by adding half a
   millisecond and truncating; for a non-negative input this rounds half up.
   */
  function TimeSinceMs(ns: int): (ms: int)
    ensures ns >= 0 ==> ms >= 0 && ms * Millisecond - HalfMillisecond <= ns < ms * Millisecond + HalfMillisecond
    ensures ns + HalfMillisecond < 0 ==> ns + HalfMillisecond <= ms * Millisecond < ns + HalfMillisecond + Millisecond
  {
    GoDiv(ns + HalfMillisecond, Millisecond)
  }

  /** The basic-auth user name, "" without credentials. */
  function AuthUser(r: Request): string
  {
    if r.auth.Some? then r.auth.value.user else ""
  }

  /**
   The eight fixed pairs: the keys of BaseKeys in order, each followed by its
   value.
   */
  function BasePairs(r: Request, elapsedNs: int, status: int, size: int): (b: seq<LogValue>)
    ensures |b| == 16
    ensures b[0] == Str(BaseKeys[0]) && b[2] == Str(BaseKeys[1]) && b[4] == Str(BaseKeys[2]) && b[6] == Str(BaseKeys[3])
    ensures b[8] == Str(BaseKeys[4]) && b[10] == Str(BaseKeys[5]) && b[12] == Str(BaseKeys[6]) && b[14] == Str(BaseKeys[7])
    ensures b[1] == Str(r.verb) && b[3] == Str(r.uri) && b[13] == Str(r.host) && b[15] == Str(UserAgent(r))
    ensures b[11] == Str(RemoteIP(r))
    ensures b[5].Str? && b[7].Str? && b[9].Str?
  {
    [Str("method"), Str(r.verb),
     Str("path"), Str(r.uri),
     Str("time"), Str(FormatInt(TimeSinceMs(elapsedNs))),
     Str("bytes"), Str(FormatInt(size)),
     Str("status"), Str(FormatInt(status)),
     Str("remote_addr"), Str(RemoteIP(r)),
     Str("host"), Str(r.host),
     Str("user_agent"), Str(UserAgent(r))]
  }

  /** The time, bytes and status values are decimal strings that read back as the numbers logged. */
  lemma BasePairsNumbers(r: Request, elapsedNs: int, status: int, size: int)
    ensures var b := BasePairs(r, elapsedNs, status, size);
            DecimalValue(b[5].s) == Some(TimeSinceMs(elapsedNs))
            && DecimalValue(b[7].s) == Some(size)
            && DecimalValue(b[9].s) == Some(status)
  {
    var b := BasePairs(r, elapsedNs, status, size);
    assert b[5].s == FormatInt(TimeSinceMs(elapsedNs)) && b[7].s == FormatInt(size) && b[9].s == FormatInt(status);
    FormatIntRoundTrip(TimeSinceMs(elapsedNs));
    FormatIntRoundTrip(size);
    FormatIntRoundTrip(status);
  }

  /**
   writeLog (lib.go): the eight fixed pairs in order, then "user" when the
   basic-auth user is non-empty, then "request_id" when X-Request-Id is set.
   */
  function WriteLog(r: Request, elapsedNs: int, status: int, size: int): (rec: seq<LogValue>)
    ensures |rec| == 16 + (if AuthUser(r) != "" then 2 else 0) + (if Get(r.header, RequestIdHeader) != "" then 2 else 0)
    ensures rec[..16] == BasePairs(r, elapsedNs, status, size)
    ensures AuthUser(r) != "" ==> rec[16..18] == [Str("user"), Str(AuthUser(r))]
    ensures Get(r.header, RequestIdHeader) != "" ==>
              rec[|rec| - 2..] == [Str("request_id"), Str(Get(r.header, RequestIdHeader))]
  {
    var user := AuthUser(r);
    var base := BasePairs(r, elapsedNs, status, size);
    var withUser := if user != "" then base + [Str("user"), Str(user)] else base;
    var id := Get(r.header, RequestIdHeader);
    assert withUser[..16] == base;
    if id != "" then
      var rec := withUser + [Str("request_id"), Str(id)];
      assert rec[..|withUser|] == withUser;
      rec
    else withUser
  }

  /**
   logHandler.ServeHTTP (lib.go): the handler runs against the logger
   makeLogger picked, and the record carries the logger's final status and
   size; the writer sees the handler's calls, minus pushes the shape hides.
   The record is read from `seen`, the request as it stands once the handler
   has returned: the handler shares its header map (and its log holder), so
   what inner middlewares set there is logged.
   */
  function ServeLog(seen: Request, w: Sink, t: seq<Event>, elapsedNs: int, hijackLoggerHijacks: bool): (res: (Sink, seq<LogValue>))
    ensures res.0 == RunSink(w, if !w.caps.closeNotifier then t else NoPush(t))
    ensures res.1 == WriteLog(seen, elapsedNs,
                              match LastHeaderCode(t) case Some(c) => (if c == 0 then StatusOK else c) case None => StatusOK,
                              Written(t))
  {
    var shape := MakeLogger(w.caps, hijackLoggerHijacks);
    var pushExposed := Exposes(shape, hijackLoggerHijacks).pusher;
    var l := RunLogger(ResponseLogger(w, 0, 0), t, pushExposed);
    RunLoggerTransparent(ResponseLogger(w, 0, 0), t, pushExposed);
    RunLoggerStatus(ResponseLogger(w, 0, 0), t, pushExposed);
    RunLoggerSize(ResponseLogger(w, 0, 0), t, pushExposed);
    (l.w, WriteLog(seen, elapsedNs, Status(l), l.size))
  }

  /**
   When an inner UUID middleware gives a request without X-Request-Id a fresh
   identifier, it sets it on the shared header map, so the access log, written
   after the handler returns, carries that identifier as its last pair.
   */
  lemma ServeLogSeesInnerRequestId(r: Request, w: Sink, t: seq<Event>, elapsedNs: int, hh: bool, generated: Uuid.UUID)
    requires Get(r.header, RequestIdHeader) == ""
    ensures var rec := ServeLog(r.(header := Lib.UUID(r, generated).header), w, t, elapsedNs, hh).1;
            |rec| >= 18 && rec[|rec| - 2..] == [Str("request_id"), Str(Uuid.Format(generated))]
  {
  }
}
