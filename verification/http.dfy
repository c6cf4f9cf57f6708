/**
 The slice of net/http the middleware works against: header maps, the
 underlying response writer (the "sink" every decorator wraps), the calls an
 inner handler makes on a writer, the request and its context bag.
 */
module Http {
  import opened Wrappers
  import opened Text
  import Uuid

  /** http.Header; keys are taken to be in canonical form already. */
  type Header = map<string, seq<string>>

  /** http.StatusOK. */
  const StatusOK: int := 200

  /** The request-id header, read and written by both request-id implementations. */
  const RequestIdHeader: string := "X-Request-Id"

  /** Header.Get: the first value for the key, or "". */
  function Get(h: Header, key: string): string
  {
    if key in h && |h[key]| > 0 then h[key][0] else ""
  }

  /** Header.Set: the key holds exactly this one value afterwards. */
  function Set(h: Header, key: string, value: string): (r: Header)
    ensures Get(r, key) == value
    ensures forall k :: k != key ==> Get(r, k) == Get(h, k)
  {
    h[key := [value]]
  }

  /** Header.Add: the value is appended to those already held. */
  function Add(h: Header, key: string, value: string): (r: Header)
    ensures forall k :: k != key ==> Get(r, k) == Get(h, k)
    ensures Get(h, key) != "" ==> Get(r, key) == Get(h, key)
    ensures Get(h, key) == "" && (key in h ==> h[key] == []) ==> Get(r, key) == value
    ensures key in r && |r[key]| > 0 && r[key][|r[key]| - 1] == value
    ensures r[key][..|r[key]| - 1] == (if key in h then h[key] else [])
  {
    h[key := (if key in h then h[key] else []) + [value]]
  }

  /** The optional interfaces a writer may implement. */
  datatype Caps = Caps(pusher: bool, closeNotifier: bool, hijacker: bool, flusher: bool)

  /** What went out on the wire when the header was committed: status line and header snapshot. */
  datatype Wire = Wire(status: int, header: Header)

  /** http.PushOptions: the method and header of the promised request. */
  datatype PushOptions = PushOptions(verb: string, header: Header)

  /** A push the writer carried out: the target and the options passed (None for nil). */
  datatype PushRequest = PushRequest(target: string, opts: Option<PushOptions>)

  /**
   The underlying http.ResponseWriter: its header map, the committed status
   and header (None until the first WriteHeader or Write), the body bytes it
   accepted, the pushes it carried out and its capabilities. `pushReply` is
   what the writer's own Push returns when it is a Pusher: an HTTP/2 writer
   answers ErrNotSupported when the client has disabled push.
   */
  datatype Sink = Sink(header: Header, wire: Option<Wire>, body: seq<byte>, pushed: seq<PushRequest>, caps: Caps, pushReply: PushError)

  function NewSink(caps: Caps, pushReply: PushError): Sink
  {
    Sink(map[], None, [], [], caps, pushReply)
  }

  /**
   One call an inner handler makes on the writer it was given.
   `Write(taken, left)`: the handler passed `taken + left` and the writer
   reported |taken| bytes written (a short write when `left` is non-empty).
   `Push` is the handler's own probe-and-push: `w.(http.Pusher)` then `Push`.
   */
  datatype Event =
    | SetHeader(key: string, value: string)
    | AddHeader(key: string, value: string)
    | WriteHeader(code: int)
    | Write(taken: seq<byte>, left: seq<byte>)
    | Push(target: string, opts: Option<PushOptions>)

  /**
   The error a Push returns: none, http.ErrNotSupported, or any other error
   a Pusher reports (a recursive push, a malformed target).
   */
  datatype PushError = NoError | NotSupported | PushFailed

  /** What a call returns to the handler. */
  datatype Reply = Done | Wrote(n: nat) | Pushed(err: PushError)

  predicate IsWrite(e: Event)
  {
    e.WriteHeader? || e.Write?
  }

  predicate HasWrite(t: seq<Event>)
  {
    exists i :: 0 <= i < |t| && IsWrite(t[i])
  }

  /** The header is committed with `code` unless it already was (a superfluous call is ignored). */
  function SinkWriteHeader(s: Sink, code: int): Sink
  {
    if s.wire.None? then s.(wire := Some(Wire(code, s.header))) else s
  }

  /** A body write commits status 200 if nothing was committed yet. */
  function SinkWrite(s: Sink, taken: seq<byte>): Sink
  {
    var c := SinkWriteHeader(s, StatusOK);
    c.(body := c.body + taken)
  }

  /** A Pusher's own Push: the push happens only when the writer accepts it. */
  function SinkPush(s: Sink, target: string, opts: Option<PushOptions>): Sink
    requires s.caps.pusher
  {
    if s.pushReply == NoError then s.(pushed := s.pushed + [PushRequest(target, opts)]) else s
  }

  /** A handler's call made directly on the underlying writer. */
  function Apply(s: Sink, e: Event): (Sink, Reply)
  {
    match e
    case SetHeader(k, v) => (s.(header := Set(s.header, k, v)), Done)
    case AddHeader(k, v) => (s.(header := Add(s.header, k, v)), Done)
    case WriteHeader(code) => (SinkWriteHeader(s, code), Done)
    case Write(taken, _) => (SinkWrite(s, taken), Wrote(|taken|))
    case Push(target, opts) =>
      if s.caps.pusher then (SinkPush(s, target, opts), Pushed(s.pushReply)) else (s, Pushed(NotSupported))
  }

  /** A whole trace of calls made directly on the underlying writer. */
  function RunSink(s: Sink, t: seq<Event>): Sink
    decreases |t|
  {
    if t == [] then s else RunSink(Apply(s, t[0]).0, t[1..])
  }

  lemma {:induction false} RunSinkAppend(s: Sink, a: seq<Event>, b: seq<Event>)
    ensures RunSink(s, a + b) == RunSink(RunSink(s, a), b)
    decreases |a|
  {
    if a != [] {
      assert (a + b)[1..] == a[1..] + b;
      RunSinkAppend(Apply(s, a[0]).0, a[1..], b);
    } else {
      assert a + b == b;
    }
  }

  /** Once the header is committed, later calls never change what was committed. */
  lemma {:induction false} RunSinkKeepsWire(s: Sink, t: seq<Event>)
    requires s.wire.Some?
    ensures RunSink(s, t).wire == s.wire
    decreases |t|
  {
    if t != [] {
      RunSinkKeepsWire(Apply(s, t[0]).0, t[1..]);
    }
  }

  /** Calls that are not writes leave the header uncommitted. */
  lemma {:induction false} RunSinkNoWrite(s: Sink, t: seq<Event>)
    requires forall i :: 0 <= i < |t| ==> !IsWrite(t[i])
    ensures RunSink(s, t).wire == s.wire
    decreases |t|
  {
    if t != [] {
      RunSinkNoWrite(Apply(s, t[0]).0, t[1..]);
    }
  }

  /** The position of the first WriteHeader or Write in a trace, or its length if there is none. */
  function FirstWrite(t: seq<Event>): (k: nat)
    ensures k <= |t|
    ensures forall j :: 0 <= j < k ==> !IsWrite(t[j])
    ensures k < |t| ==> IsWrite(t[k])
    ensures k == |t| <==> !HasWrite(t)
  {
    if t == [] then 0 else if IsWrite(t[0]) then 0 else 1 + FirstWrite(t[1..])
  }

  /** The trace with one extra call `e` placed just before its first write (or at the end). */
  function Injected(t: seq<Event>, e: Event): (r: seq<Event>)
    ensures |r| == |t| + 1
  {
    t[..FirstWrite(t)] + [e] + t[FirstWrite(t)..]
  }

  /** A trace has a write when its first call is one or its tail has one. */
  lemma HasWriteCons(t: seq<Event>)
    requires t != []
    ensures HasWrite(t) <==> IsWrite(t[0]) || HasWrite(t[1..])
  {
    if HasWrite(t) && !IsWrite(t[0]) {
      var i :| 0 <= i < |t| && IsWrite(t[i]);
      assert IsWrite(t[1..][i - 1]);
    }
    if HasWrite(t[1..]) {
      var i :| 0 <= i < |t[1..]| && IsWrite(t[1..][i]);
      assert IsWrite(t[i + 1]);
    }
  }

  lemma SpliceCons(t: seq<Event>, e: Event, k: nat)
    requires k + 1 <= |t|
    ensures t[..k + 1] + [e] + t[k + 1..] == [t[0]] + (t[1..][..k] + [e] + t[1..][k..])
  {
    var a, b := t[1..][..k], t[1..][k..];
    assert t[..k + 1] == [t[0]] + a;
    assert t[k + 1..] == b;
  }

  /** Injecting into a trace that starts with a non-write injects into its tail. */
  lemma InjectedCons(t: seq<Event>, e: Event)
    requires t != [] && !IsWrite(t[0])
    ensures FirstWrite(t) == FirstWrite(t[1..]) + 1
    ensures Injected(t, e) == [t[0]] + Injected(t[1..], e)
  {
    SpliceCons(t, e, FirstWrite(t[1..]));
  }

  /** Injecting into a trace that starts with a write puts the call first. */
  lemma InjectedHead(t: seq<Event>, e: Event)
    requires t != [] && IsWrite(t[0])
    ensures FirstWrite(t) == 0
    ensures Injected(t, e) == [e, t[0]] + t[1..]
  {
  }

  /** The header the client receives: the committed snapshot, or the final map when nothing was written. */
  function Delivered(s: Sink): Header
  {
    if s.wire.Some? then s.wire.value.header else s.header
  }

  /** The status the client receives: net/http sends 200 when the handler wrote nothing. */
  function DeliveredStatus(s: Sink): int
  {
    if s.wire.Some? then s.wire.value.status else StatusOK
  }

  /**
   Setting a header just before the first write puts it in what the client
   receives, whatever the handler set before or after.
   */
  lemma InjectedIsDelivered(s: Sink, t: seq<Event>, key: string, value: string)
    requires s.wire.None?
    ensures Get(Delivered(RunSink(s, Injected(t, SetHeader(key, value)))), key) == value
  {
    var k := FirstWrite(t);
    var a, b := t[..k], t[k..];
    var e := SetHeader(key, value);
    RunSinkAppend(s, a + [e], b);
    RunSinkAppend(s, a, [e]);
    RunSinkNoWrite(s, a);
    var s1 := RunSink(s, a + [e]);
    assert s1.wire.None? && Get(s1.header, key) == value;
    if b != [] {
      var s2 := Apply(s1, b[0]).0;
      assert s2.wire == Some(Wire(s2.wire.value.status, s1.header));
      RunSinkKeepsWire(s2, b[1..]);
    }
  }

  /** The body bytes a trace hands to the writer, as the writer reported them. */
  function Body(t: seq<Event>): seq<byte>
  {
    if t == [] then [] else (if t[0].Write? then t[0].taken else []) + Body(t[1..])
  }

  /** The number of bytes the writer reported over a trace. */
  function Written(t: seq<Event>): nat
  {
    if t == [] then 0 else (if t[0].Write? then |t[0].taken| else 0) + Written(t[1..])
  }

  lemma {:induction false} RunSinkBody(s: Sink, t: seq<Event>)
    ensures RunSink(s, t).body == s.body + Body(t)
    decreases |t|
  {
    if t != [] {
      RunSinkBody(Apply(s, t[0]).0, t[1..]);
    }
  }

  /** time.Time as a wall-clock reading; `ZeroTime` is time.Time{}. */
  datatype Time = ZeroTime | Instant(unixNano: int)

  type uint64 = x: int | 0 <= x < 0x1_0000_0000_0000_0000

  /** time.Duration(now - start) on uint64 monotonic readings: the difference wraps modulo 2^64 and is reinterpreted as an int64. */
  function MonoSince(now: uint64, start: uint64): (d: int)
    ensures start <= now && now - start < 0x8000_0000_0000_0000 ==> d == now - start
  {
    var diff := (now - start) % 0x1_0000_0000_0000_0000;
    if diff < 0x8000_0000_0000_0000 then diff else diff - 0x1_0000_0000_0000_0000
  }

  /** A value appended to an access-log record. */
  datatype LogValue = Str(s: string) | Int(i: int) | Bool(b: bool)

  /** The context keys the package uses (ctx.go's requestID, startTime, startMono and the extra-log holder). */
  datatype CtxKey = RequestIdKey | StartTimeKey | StartMonoKey | ExtraLogKey

  datatype CtxValue =
    | UuidValue(id: Uuid.UUID)
    | TimeValue(t: Time)
    | MonoValue(m: uint64)
    | HolderValue(logs: seq<LogValue>)

  /** One layer of a context chain: context.WithValue or context.WithDeadline. */
  datatype Layer = WithValue(key: CtxKey, value: CtxValue) | WithDeadline(at: int)

  /** A context.Context as its chain of layers, oldest first. */
  type Context = seq<Layer>

  /** ctx.Value(key): the newest binding of the key, or nil. */
  function Value(ctx: Context, key: CtxKey): Option<CtxValue>
  {
    if ctx == [] then None
    else
      var last := ctx[|ctx| - 1];
      if last.WithValue? && last.key == key then Some(last.value) else Value(ctx[..|ctx| - 1], key)
  }

  /** ctx.Deadline(): the newest deadline layer, or none. */
  function Deadline(ctx: Context): Option<int>
  {
    if ctx == [] then None
    else
      var last := ctx[|ctx| - 1];
      if last.WithDeadline? then Some(last.at) else Deadline(ctx[..|ctx| - 1])
  }

  /** The username and password r.BasicAuth() decodes from the Authorization header. */
  datatype Credentials = Credentials(user: string, pass: string)

  /**
   An *http.Request as the middleware sees it. `uri` is r.URL.RequestURI()
   and `auth` the result of r.BasicAuth(); both are computed by net/http.
   */
  datatype Request = Request(
    verb: string,
    path: string,
    uri: string,
    header: Header,
    remoteAddr: string,
    host: string,
    auth: Option<Credentials>,
    ctx: Context)

  /** r.UserAgent(). */
  function UserAgent(r: Request): string
  {
    Get(r.header, "User-Agent")
  }
}
