/**
 ctx.go: the request identifier, wall-clock start and monotonic start kept in
 the request's context bag, the Duration middleware's context setup, and
 WithTimeout's deadline.
 */
module Ctx {
  import opened Wrappers
  import opened Text
  import opened Http
  import opened Writers
  import opened Uuid
  import NoCtx

  /**
   SetRequestID: X-Request-Id carries the identifier's text and the context
   gains a layer binding it; the request is otherwise unchanged.
   */
  function SetRequestID(r: Request, u: UUID): (r': Request)
    ensures Get(r'.header, RequestIdHeader) == Format(u)
    ensures forall k :: k != RequestIdHeader ==> Get(r'.header, k) == Get(r.header, k)
    ensures Value(r'.ctx, RequestIdKey) == Some(UuidValue(u))
    ensures forall k :: k != RequestIdKey ==> Value(r'.ctx, k) == Value(r.ctx, k)
    ensures Deadline(r'.ctx) == Deadline(r.ctx)
    ensures r' == r.(header := r'.header, ctx := r'.ctx)
  {
    var ctx := r.ctx + [WithValue(RequestIdKey, UuidValue(u))];
    assert ctx[..|ctx| - 1] == r.ctx;
    r.(header := Set(r.header, RequestIdHeader, Format(u)), ctx := ctx)
  }

  /**
   GetRequestID: the identifier bound in the context; (Nil, false) when none
   is bound or the bound value is not an identifier.
   */
  function GetRequestID(ctx: Context): (res: (UUID, bool))
    ensures res.1 <==> Value(ctx, RequestIdKey).Some? && Value(ctx, RequestIdKey).value.UuidValue?
    ensures res.1 ==> Value(ctx, RequestIdKey) == Some(UuidValue(res.0))
    ensures !res.1 ==> res.0 == Nil
  {
    match Value(ctx, RequestIdKey)
    case Some(UuidValue(u)) => (u, true)
    case Some(_) => (Nil, false)
    case None => (Nil, false)
  }

  /** Get after Set returns the identifier, and the header holds its text form. */
  lemma GetAfterSet(r: Request, u: UUID)
    ensures GetRequestID(SetRequestID(r, u).ctx) == (u, true)
    ensures NoCtx.GetRequestID(SetRequestID(r, u)) == (u, true)
  {
    ParseFormat(u);
  }

  /** A context where nothing bound the identifier gives (Nil, false). */
  lemma GetWithoutId(ctx: Context)
    requires forall i :: 0 <= i < |ctx| ==> !(ctx[i].WithValue? && ctx[i].key == RequestIdKey)
    ensures GetRequestID(ctx) == (Nil, false)
  {
    ValueUnbound(ctx, RequestIdKey);
  }

  lemma {:induction false} ValueUnbound(ctx: Context, key: CtxKey)
    requires forall i :: 0 <= i < |ctx| ==> !(ctx[i].WithValue? && ctx[i].key == key)
    ensures Value(ctx, key) == None
    decreases |ctx|
  {
    if ctx != [] {
      ValueUnbound(ctx[..|ctx| - 1], key);
    }
  }

  /** The value under startTime, if any, is a time.Time: the type assertion panics otherwise. */
  predicate StartTimeTyped(ctx: Context)
  {
    Value(ctx, StartTimeKey).Some? ==> Value(ctx, StartTimeKey).value.TimeValue?
  }

  /** The value under startMono, if any, is a uint64: the type assertion panics otherwise. */
  predicate StartMonoTyped(ctx: Context)
  {
    Value(ctx, StartMonoKey).Some? ==> Value(ctx, StartMonoKey).value.MonoValue?
  }

  /** GetStartTime: the recorded wall-clock start, or the zero time when none is recorded. */
  function GetStartTime(ctx: Context): (t: Time)
    requires StartTimeTyped(ctx)
    ensures Value(ctx, StartTimeKey).None? ==> t == ZeroTime
    ensures Value(ctx, StartTimeKey).Some? ==> Value(ctx, StartTimeKey) == Some(TimeValue(t))
  {
    match Value(ctx, StartTimeKey)
    case Some(v) => v.t
    case None => ZeroTime
  }

  /** getStartMono: the recorded monotonic start, or 0 when none is recorded. */
  function GetStartMono(ctx: Context): (m: uint64)
    requires StartMonoTyped(ctx)
    ensures Value(ctx, StartMonoKey).None? ==> m == 0
    ensures Value(ctx, StartMonoKey).Some? ==> Value(ctx, StartMonoKey) == Some(MonoValue(m))
  {
    match Value(ctx, StartMonoKey)
    case Some(v) => v.m
    case None => 0
  }

  /**
   GetDuration at monotonic reading `now`: 0 when no start is recorded (or the
   recorded start is 0), otherwise the time elapsed since the recorded start.
   */
  function GetDuration(ctx: Context, now: uint64): (d: int)
    requires StartMonoTyped(ctx)
    ensures GetStartMono(ctx) == 0 ==> d == 0
    ensures GetStartMono(ctx) != 0 && GetStartMono(ctx) <= now && now - GetStartMono(ctx) < 0x8000_0000_0000_0000 ==>
              d == now - GetStartMono(ctx)
  {
    var t := GetStartMono(ctx);
    if t == 0 then 0 else MonoSince(now, t)
  }

  /**
   The Duration middleware's setup: a fresh startWriter around `w`, and the
   context the inner handler sees, which records both starts on top of `ctx`.
   */
  function Duration(r: Request, w: Sink, wallNow: Time, monoNow: uint64): (res: (Request, StartWriter))
    ensures res.1 == StartWriter(w, monoNow, false)
    ensures Value(res.0.ctx, StartTimeKey) == Some(TimeValue(wallNow))
    ensures Value(res.0.ctx, StartMonoKey) == Some(MonoValue(monoNow))
    ensures forall k :: k != StartTimeKey && k != StartMonoKey ==> Value(res.0.ctx, k) == Value(r.ctx, k)
    ensures Deadline(res.0.ctx) == Deadline(r.ctx)
    ensures res.0 == r.(ctx := res.0.ctx)
  {
    var c1 := r.ctx + [WithValue(StartTimeKey, TimeValue(wallNow))];
    var c2 := c1 + [WithValue(StartMonoKey, MonoValue(monoNow))];
    assert c1[..|c1| - 1] == r.ctx;
    assert c2[..|c2| - 1] == c1;
    (r.(ctx := c2), StartWriter(w, monoNow, false))
  }

  /**
   Inside Duration, the handler reads back the wall-clock start, its
   elapsed-time query measures from the monotonic start, and the request
   identifier is still visible.
   */
  lemma DurationThenGet(r: Request, w: Sink, wallNow: Time, monoNow: uint64, now: uint64)
    requires 0 < monoNow <= now && now - monoNow < 0x8000_0000_0000_0000
    ensures StartTimeTyped(Duration(r, w, wallNow, monoNow).0.ctx)
    ensures GetStartTime(Duration(r, w, wallNow, monoNow).0.ctx) == wallNow
    ensures StartMonoTyped(Duration(r, w, wallNow, monoNow).0.ctx)
    ensures GetDuration(Duration(r, w, wallNow, monoNow).0.ctx, now) == now - monoNow
    ensures GetRequestID(Duration(r, w, wallNow, monoNow).0.ctx) == GetRequestID(r.ctx)
  {
  }

  /** A handler wrapped with a non-negative timeout. */
  datatype TimeoutHandler = TimeoutHandler(timeout: nat)

  /** WithTimeout: a negative timeout panics at construction (None); zero and above are accepted. */
  function WithTimeout(timeout: int): (r: Option<TimeoutHandler>)
    ensures r.Some? <==> timeout >= 0
    ensures r.Some? ==> r.value.timeout == timeout
  {
    if timeout < 0 then None else Some(TimeoutHandler(timeout))
  }

  /**
   The context the wrapped handler sees: context.WithTimeout(ctx, timeout)
   taken at wall-clock `now` (nanoseconds). The deadline is the earlier of the
   parent's and now + timeout; every value stays visible.
   */
  function ServeTimeout(h: TimeoutHandler, r: Request, now: int): (r': Request)
    ensures Deadline(r'.ctx).Some?
    ensures Deadline(r.ctx).None? ==> Deadline(r'.ctx) == Some(now + h.timeout)
    ensures Deadline(r.ctx).Some? ==>
              Deadline(r'.ctx).value == if Deadline(r.ctx).value < now + h.timeout then Deadline(r.ctx).value else now + h.timeout
    ensures forall k :: Value(r'.ctx, k) == Value(r.ctx, k)
    ensures r' == r.(ctx := r'.ctx)
  {
    var d := now + h.timeout;
    match Deadline(r.ctx)
    case Some(p) =>
      if p < d then r
      else
        var c := r.ctx + [WithDeadline(d)];
        assert c[..|c| - 1] == r.ctx;
        r.(ctx := c)
    case None =>
      var c := r.ctx + [WithDeadline(d)];
      assert c[..|c| - 1] == r.ctx;
      r.(ctx := c)
  }
}
