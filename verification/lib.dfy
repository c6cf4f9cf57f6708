/**
 lib.go, handler half: the Server decorator and its serverWriter, the JSON,
 STS, trailing-slash, request-id and basic-auth middlewares, and lib.go's own
 copy of the push probe.
 */
module Lib {
  import opened Wrappers
  import opened Text
  import opened Http
  import opened Writers
  import Uuid
  import Ctx
  import NoCtx
  import PushMethods

  const ServerHeader: string := "Server"
  const ContentType: string := "Content-Type"
  const JsonContentType: string := "application/json; charset=utf-8"
  const StsHeader: string := "Strict-Transport-Security"
  const StsValue: string := "max-age=31536000; preload"

  /**
   lib.go's push: returns a Pusher's own answer, otherwise
   http.ErrNotSupported. It succeeds exactly when the writer is a Pusher that
   accepts the push, and only then is the push recorded.
   */
  function Push(w: Sink, target: string, opts: Option<PushOptions>): (r: (Sink, PushError))
    ensures r.1 == NoError <==> w.caps.pusher && w.pushReply == NoError
    ensures r.1 == NotSupported <==> !w.caps.pusher || w.pushReply == NotSupported
    ensures r.0.pushed == w.pushed + (if r.1 == NoError then [PushRequest(target, opts)] else [])
    ensures r.0.header == w.header && r.0.wire == w.wire && r.0.body == w.body && r.0.caps == w.caps
  {
    if w.caps.pusher then (SinkPush(w, target, opts), w.pushReply) else (w, NotSupported)
  }

  /** lib.go's push and push.go's push behave alike on every writer. */
  lemma PushAgreesWithPushGo(w: Sink, target: string, opts: Option<PushOptions>)
    ensures Push(w, target, opts) == PushMethods.Push(w, target, opts)
  {
  }

  /** JSON: Content-Type is set before the inner handler runs; no other header changes. */
  function JSON(w: Sink): (r: Sink)
    ensures Get(r.header, ContentType) == JsonContentType
    ensures forall k :: k != ContentType ==> Get(r.header, k) == Get(w.header, k)
    ensures r == w.(header := r.header)
  {
    w.(header := Set(w.header, ContentType, JsonContentType))
  }

  /** STS: the HSTS header is set before the inner handler runs; no other header changes. */
  function STS(w: Sink): (r: Sink)
    ensures Get(r.header, StsHeader) == StsValue
    ensures forall k :: k != StsHeader ==> Get(r.header, k) == Get(w.header, k)
    ensures r == w.(header := r.header)
  {
    w.(header := Set(w.header, StsHeader, StsValue))
  }

  /** The one-time header set of serverWriter. */
  function ServerSet(name: string): Event
  {
    SetHeader(ServerHeader, name)
  }

  /** Sets Server on the wrapped writer unless that was already done. */
  function ServerInject(s: ServerWriter): (r: ServerWriter)
    ensures r.wroteHeader && r.name == s.name
    ensures !s.wroteHeader ==> r.w == Apply(s.w, ServerSet(s.name)).0
    ensures s.wroteHeader ==> r == s
  {
    if !s.wroteHeader then ServerWriter(s.w.(header := Set(s.w.header, ServerHeader, s.name)), s.name, true) else s
  }

  /** serverWriter.WriteHeader: set Server if not yet done, then delegate. */
  function ServerWriteHeader(s: ServerWriter, code: int): (r: ServerWriter)
    ensures r.wroteHeader && r.name == s.name
    ensures !s.wroteHeader && s.w.wire.None? ==> r.w.wire == Some(Wire(code, Set(s.w.header, ServerHeader, s.name)))
    ensures s.wroteHeader ==> r.w == SinkWriteHeader(s.w, code)
    ensures r.w.body == s.w.body
  {
    var s1 := ServerInject(s);
    s1.(w := SinkWriteHeader(s1.w, code))
  }

  /** serverWriter.Write: set Server if not yet done, then delegate and return the writer's count. */
  function ServerWrite(s: ServerWriter, taken: seq<byte>): (r: (ServerWriter, nat))
    ensures r.0.wroteHeader && r.0.name == s.name
    ensures !s.wroteHeader && s.w.wire.None? ==> r.0.w.wire == Some(Wire(StatusOK, Set(s.w.header, ServerHeader, s.name)))
    ensures s.wroteHeader ==> r.0.w == SinkWrite(s.w, taken)
    ensures r.1 == |taken|
    ensures r.0.w.body == s.w.body + taken
  {
    var s1 := ServerInject(s);
    (s1.(w := SinkWrite(s1.w, taken)), |taken|)
  }

  /** serverWriter.Push (lib.go): forwards to the wrapped writer; the flag is untouched. */
  function ServerWriterPush(s: ServerWriter, target: string, opts: Option<PushOptions>): (r: (ServerWriter, PushError))
    ensures r.0.name == s.name && r.0.wroteHeader == s.wroteHeader
    ensures (r.0.w, r.1) == Push(s.w, target, opts)
  {
    var (w', err) := Push(s.w, target, opts);
    (s.(w := w'), err)
  }

  /** One call on the serverWriter; Header() is the wrapped writer's header. */
  function ServerStep(s: ServerWriter, e: Event): (ServerWriter, Reply)
  {
    match e
    case WriteHeader(code) => (ServerWriteHeader(s, code), Done)
    case Write(taken, _) =>
      var (s', n) := ServerWrite(s, taken);
      (s', Wrote(n))
    case Push(target, opts) =>
      var (s', err) := ServerWriterPush(s, target, opts);
      (s', Pushed(err))
    case _ => (s.(w := Apply(s.w, e).0), Done)
  }

  function RunServer(s: ServerWriter, t: seq<Event>): ServerWriter
    decreases |t|
  {
    if t == [] then s else RunServer(ServerStep(s, t[0]).0, t[1..])
  }

  /** After Server is set, every call is only delegated. */
  lemma {:induction false} RunServerCommitted(s: ServerWriter, t: seq<Event>)
    requires s.wroteHeader
    ensures RunServer(s, t) == s.(w := RunSink(s.w, t))
    decreases |t|
  {
    if t != [] {
      RunServerCommitted(ServerStep(s, t[0]).0, t[1..]);
    }
  }

  /**
   From a fresh serverWriter the calls reach the wrapped writer unchanged,
   with one Server set inserted just before the first write.
   */
  lemma {:induction false} RunServerFresh(s: ServerWriter, t: seq<Event>)
    requires !s.wroteHeader
    ensures RunServer(s, t).wroteHeader == HasWrite(t)
    ensures RunServer(s, t).name == s.name
    ensures !HasWrite(t) ==> RunServer(s, t).w == RunSink(s.w, t)
    ensures HasWrite(t) ==> RunServer(s, t).w == RunSink(s.w, Injected(t, ServerSet(s.name)))
    decreases |t|
  {
    if t != [] {
      var e := t[0];
      var s1 := ServerStep(s, e).0;
      HasWriteCons(t);
      if IsWrite(e) {
        RunServerCommitted(s1, t[1..]);
        InjectedHead(t, ServerSet(s.name));
        RunSinkAppend(s.w, [ServerSet(s.name), e], t[1..]);
      } else {
        assert s1 == s.(w := Apply(s.w, e).0);
        RunServerFresh(s1, t[1..]);
        if HasWrite(t) {
          InjectedCons(t, ServerSet(s.name));
        }
      }
    }
  }

  /**
   Server: the inner handler's calls reach the writer with exactly one
   `Server: name` set added, just before its first write, or after it
   returns when it never wrote.
   */
  function Server(w: Sink, name: string, t: seq<Event>): (r: Sink)
    ensures r == RunSink(w, Injected(t, ServerSet(name)))
  {
    var sw := RunServer(ServerWriter(w, name, false), t);
    ServerFinish(w, name, t);
    if !sw.wroteHeader then sw.w.(header := Set(sw.w.header, ServerHeader, name)) else sw.w
  }

  /** The set Server makes after the inner handler returns is the injection at the end of a trace without writes. */
  lemma ServerFinish(w: Sink, name: string, t: seq<Event>)
    ensures var sw := RunServer(ServerWriter(w, name, false), t);
            (if !sw.wroteHeader then sw.w.(header := Set(sw.w.header, ServerHeader, name)) else sw.w)
            == RunSink(w, Injected(t, ServerSet(name)))
  {
    RunServerFresh(ServerWriter(w, name, false), t);
    if !HasWrite(t) {
      RunSinkAppend(w, t, [ServerSet(name)]);
      assert Injected(t, ServerSet(name)) == t + [ServerSet(name)];
      var s := RunSink(w, t);
      assert RunSink(s, [ServerSet(name)]) == RunSink(Apply(s, ServerSet(name)).0, []);
    }
  }

  /**
   The client receives `Server: name` whatever the inner handler set, and
   the body is the handler's, byte for byte.
   */
  lemma ServerDelivered(w: Sink, name: string, t: seq<Event>)
    requires w.wire.None?
    ensures Get(Delivered(Server(w, name, t)), ServerHeader) == name
    ensures Server(w, name, t).body == w.body + Body(t)
  {
    InjectedIsDelivered(w, t, ServerHeader, name);
    RunSinkBody(w, Injected(t, ServerSet(name)));
    BodyInjectedSet(t, ServerHeader, name);
  }

  /** A header set adds no body bytes. */
  lemma BodyInjectedSet(t: seq<Event>, key: string, value: string)
    ensures Body(Injected(t, SetHeader(key, value))) == Body(t)
  {
    var e := SetHeader(key, value);
    var k := FirstWrite(t);
    var a, c := t[..k], t[k..];
    assert Injected(t, e) == (a + [e]) + c;
    BodyAppend(a + [e], c);
    BodyAppend(a, [e]);
    assert [e][1..] == [];
    assert Body([e]) == [];
    assert a + [e] + c == Injected(t, e);
    BodyAppend(a, c);
    assert a + c == t;
  }

  lemma {:induction false} BodyAppend(a: seq<Event>, b: seq<Event>)
    ensures Body(a + b) == Body(a) + Body(b)
    decreases |a|
  {
    if a == [] {
      assert a + b == b;
    } else {
      assert (a + b)[1..] == a[1..] + b;
      BodyAppend(a[1..], b);
    }
  }

  /** The response to a path with a trailing slash, or the decision to pass it on. */
  datatype SlashOutcome = Redirect(location: string, code: int) | Delegate

  /**
   TrailingSlashRedirect: a path longer than "/" that ends in '/' is
   redirected (301) to itself minus exactly one trailing '/'; every other path
   is passed to the inner handler.
   */
  function TrailingSlashRedirect(path: string): (o: SlashOutcome)
    ensures o.Redirect? <==> |path| > 1 && path[|path| - 1] == '/'
    ensures o.Redirect? ==> o.code == 301 && o.location + "/" == path
    ensures o.Redirect? ==>
              (|o.location| > 0 && o.location[|o.location| - 1] == '/' <==> path[|path| - 2] == '/')
  {
    if |path| > 1 && path[|path| - 1] == '/' then Redirect(path[..|path| - 1], 301) else Delegate
  }

  /**
   UUID: a request without X-Request-Id gets the generated identifier in both
   its header and its context; a request with one is passed on unchanged.
   */
  function UUID(r: Request, generated: Uuid.UUID): (r': Request)
    ensures Get(r.header, RequestIdHeader) != "" ==> r' == r
    ensures Get(r.header, RequestIdHeader) == "" ==>
              Get(r'.header, RequestIdHeader) == Uuid.Format(generated)
              && Ctx.GetRequestID(r'.ctx) == (generated, true)
    ensures Get(r'.header, RequestIdHeader) != ""
  {
    if Get(r.header, RequestIdHeader) == "" then
      Ctx.GetAfterSet(r, generated);
      Ctx.SetRequestID(r, generated)
    else r
  }

  /**
 subtle.ConstantTimeCompare: 1 when the two strings are equal, 0 otherwise.
 Unequal lengths answer at once; equal lengths look at every position,
 accumulating whether any pair differed.
 */
  method ConstantTimeCompare(x: string, y: string) returns (r: int)
    ensures r == 1 <==> x == y
    ensures r == 0 || r == 1
  {
    if |x| != |y| {
      return 0;
    }
    var differ := false;
    var i := 0;
    while i < |x|
      invariant 0 <= i <= |x|
      invariant !differ <==> x[..i] == y[..i]
    {
      assert x[..i + 1] == x[..i] + [x[i]] && y[..i + 1] == y[..i] + [y[i]];
      differ := differ || x[i] != y[i];
      i := i + 1;
    }
    assert x[..i] == x && y[..i] == y;
    r := if differ then 0 else 1;
  }

  /** The outcome of the basic-auth gate: a 401 challenge, a 403, or the inner handler. */
  datatype AuthOutcome = Unauthorized(realm: string) | Forbidden(id: string) | Granted

  /**
   BasicAuth: missing credentials or an empty unknown username get 401; a
   non-empty unknown username or a wrong password get 403; only a known user
   with the right password reaches the inner handler.
   */
  method BasicAuth(r: Request, realm: string, users: map<string, string>) returns (o: AuthOutcome)
    ensures r.auth.None? ==> o == Unauthorized(realm)
    ensures r.auth.Some? && r.auth.value.user !in users ==>
              o == if r.auth.value.user == "" then Unauthorized(realm) else Forbidden("forbidden")
    ensures r.auth.Some? && r.auth.value.user in users && users[r.auth.value.user] != r.auth.value.pass ==>
              o == Forbidden("incorrect_password")
    ensures o.Granted? <==> r.auth.Some? && r.auth.value.user in users && users[r.auth.value.user] == r.auth.value.pass
  {
    if r.auth.None? {
      return Unauthorized(realm);
    }
    var user, pass := r.auth.value.user, r.auth.value.pass;
    if user !in users {
      if user == "" {
        return Unauthorized(realm);
      }
      return Forbidden("forbidden");
    }
    var same := ConstantTimeCompare(pass, users[user]);
    if same != 1 {
      return Forbidden("incorrect_password");
    }
    return Granted;
  }
}
