/**
 lib_noslog.go: the access-log record of the pre-slog build, which appends
 the extra pairs handlers collected in the request context's log holder.
 */
module LibNoSlog {
  import opened Wrappers
  import opened Http
  import LibLog
  import Writers

  /** The holder's collected pairs, when the context holds a log holder. */
  function HolderLogs(ctx: Context): Option<seq<LogValue>>
  {
    match Value(ctx, ExtraLogKey)
    case Some(HolderValue(logs)) => Some(logs)
    case _ => None
  }

  /** writeLog's type assertion on the context value succeeds. */
  predicate HasHolder(r: Request)
  {
    HolderLogs(r.ctx).Some?
  }

  /**
   writeLog (lib_noslog.go): the eight fixed pairs, the optional "user" and
   "request_id" pairs, then the holder's pairs in the order they were added.
   The holder's pairs never replace a base pair, even under the same key.
   */
  function WriteLog(r: Request, elapsedNs: int, status: int, size: int): (rec: seq<LogValue>)
    requires HasHolder(r)
    ensures var logs := HolderLogs(r.ctx).value;
            var opt := (if LibLog.AuthUser(r) != "" then 2 else 0) + (if Get(r.header, RequestIdHeader) != "" then 2 else 0);
            |rec| == 16 + opt + |logs| && rec[16 + opt..] == logs
    ensures rec[..16] == LibLog.BasePairs(r, elapsedNs, status, size)
    ensures LibLog.AuthUser(r) != "" ==> rec[16..18] == [Str("user"), Str(LibLog.AuthUser(r))]
    ensures Get(r.header, RequestIdHeader) != "" ==>
              var k := if LibLog.AuthUser(r) != "" then 18 else 16;
              rec[k..k + 2] == [Str("request_id"), Str(Get(r.header, RequestIdHeader))]
  {
    var user := LibLog.AuthUser(r);
    var base := LibLog.BasePairs(r, elapsedNs, status, size);
    var withUser := if user != "" then base + [Str("user"), Str(user)] else base;
    var id := Get(r.header, RequestIdHeader);
    var args := if id != "" then withUser + [Str("request_id"), Str(id)] else withUser;
    var rec := args + HolderLogs(r.ctx).value;
    assert rec[..|args|] == args && rec[|args|..] == HolderLogs(r.ctx).value;
    assert args[..|withUser|] == withUser;
    assert rec[..|withUser|] == withUser;
    assert withUser[..16] == base;
    rec
  }

  /** The two builds log the same base record; this one adds the holder's pairs at the end. */
  lemma AgreesWithLib(r: Request, elapsedNs: int, status: int, size: int)
    requires HasHolder(r)
    ensures WriteLog(r, elapsedNs, status, size) == LibLog.WriteLog(r, elapsedNs, status, size) + HolderLogs(r.ctx).value
  {
  }

  /**
   A handler that appended ("via", "test", "user", 7) and ("more", true)
   gets those six values at the end of the record, while the base pairs stay
   as they were.
   */
  lemma ExtraPairsLast(r: Request, elapsedNs: int, status: int, size: int)
    requires HolderLogs(r.ctx) == Some([Str("via"), Str("test"), Str("user"), Int(7), Str("more"), Bool(true)])
    ensures var rec := WriteLog(r, elapsedNs, status, size);
            |rec| >= 22 && rec[|rec| - 6..] == [Str("via"), Str("test"), Str("user"), Int(7), Str("more"), Bool(true)]
            && rec[0] == Str("method") && rec[1] == Str(r.verb)
  {
  }

  /**
   logHandler.ServeHTTP with this build's writeLog: the record carries the
   logger's final status and size and ends with the holder's pairs. As in
   lib.go, `seen` is the request once the handler has returned; the holder is
   shared, so the pairs inner handlers appended are the ones logged.
   */
  function ServeLog(seen: Request, w: Sink, t: seq<Event>, elapsedNs: int, hijackLoggerHijacks: bool): (res: (Sink, seq<LogValue>))
    requires HasHolder(seen)
    ensures res.0 == LibLog.ServeLog(seen, w, t, elapsedNs, hijackLoggerHijacks).0
    ensures res.1 == LibLog.ServeLog(seen, w, t, elapsedNs, hijackLoggerHijacks).1 + HolderLogs(seen.ctx).value
  {
    var shape := LibLog.MakeLogger(w.caps, hijackLoggerHijacks);
    var pushExposed := LibLog.Exposes(shape, hijackLoggerHijacks).pusher;
    var l := LibLog.RunLogger(Writers.ResponseLogger(w, 0, 0), t, pushExposed);
    (l.w, WriteLog(seen, elapsedNs, LibLog.Status(l), l.size))
  }
}
