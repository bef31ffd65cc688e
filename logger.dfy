/** The session log (src/daemon/logger.ts): one serialized event per line, appended to a file
    named after the session under the user's home directory. The file itself is a sequence of
    the chunks written to it; the home directory is a parameter. */
module Logger {
  import opened Wrappers
  import opened Json
  import opened Codec

  /** The sessions directory below the home directory. */
  const SessionsDir := "/.trace-viz/sessions/"

  /** `join(SESSION_DIR, `${sessionId}.jsonl`)`, as plain concatenation. `path.join` also
      normalizes its result (a trailing `/` on the home directory, `.` and `..` segments), which
      this does not; the session ids the daemon passes are random UUIDs, which hold none of
      these. */
  function LogPath(home: string, sessionId: string): (p: string)
    ensures |p| == |home| + |SessionsDir| + |sessionId| + 6
    ensures p[..|home| + |SessionsDir|] == home + SessionsDir
    ensures p[|p| - 6..] == ".jsonl"
  {
    home + SessionsDir + sessionId + ".jsonl"
  }

  /** Two sessions never share a log file. With `path.join`'s normalization this holds only
      for ids without `/` and `..`, as the daemon's UUIDs are. */
  lemma LogPathInjective(home: string, a: string, b: string)
    requires LogPath(home, a) == LogPath(home, b)
    ensures a == b
  {
    var n := |home| + |SessionsDir|;
    assert a == LogPath(home, a)[n..n + |a|];
    assert b == LogPath(home, b)[n..n + |b|];
  }

  /** The record of one event: its JSON text and a line feed. */
  function Line(r: Record): string {
    Serialize(Obj(r)) + "\n"
  }

  /** A record ends in the one line feed it holds. */
  lemma LineShape(r: Record)
    ensures |Line(r)| > 1 && Line(r)[|Line(r)| - 1] == '\n'
    ensures '\n' !in Line(r)[..|Line(r)| - 1]
  {
    SerializeOneLine(Obj(r));
    assert Line(r)[..|Line(r)| - 1] == Serialize(Obj(r));
  }

  /** The records of a sequence of events, in order. */
  function Lines(es: seq<Record>): (ls: seq<string>)
    ensures |ls| == |es|
    ensures forall i :: 0 <= i < |es| ==> ls[i] == Line(es[i])
  {
    if |es| == 0 then [] else Lines(es[..|es| - 1]) + [Line(es[|es| - 1])]
  }

  /** The text of the chunks written, in order. */
  function Concat(chunks: seq<string>): string {
    if |chunks| == 0 then "" else chunks[0] + Concat(chunks[1..])
  }

  class SessionLogger {
    const sessionId: string
    /** The file the sink writes, once `Init` has chosen it. */
    var path: Option<string>
    /** The chunks written through the sink; `None` until `Init` has opened it. */
    var sink: Option<seq<string>>
    /** Whether `Close` has flushed and ended the sink. */
    var ended: bool

    constructor(sessionId: string)
      ensures this.sessionId == sessionId && path == None && sink == None && !ended
    {
      this.sessionId := sessionId;
      path := None;
      sink := None;
      ended := false;
    }

    /** `init()`: make the directory and open a writer on the session's file. */
    method Init(home: string)
      modifies this
      ensures path == Some(LogPath(home, sessionId)) && sink == Some([]) && !ended
    {
      path := Some(LogPath(home, sessionId));
      sink := Some([]);
      ended := false;
    }

    /** `write(event)`: append one record; nothing happens before `Init`. */
    method Write(r: Record)
      modifies this
      ensures sink == if old(sink).Some? then Some(old(sink).value + [Line(r)]) else None
      ensures path == old(path) && ended == old(ended)
    {
      if sink.Some? {
        sink := Some(sink.value + [Line(r)]);
      }
    }

    /** `close()`: flush and end the sink, if there is one; what was written stays. */
    method Close()
      modifies this
      ensures sink == old(sink) && path == old(path)
      ensures ended == (old(ended) || old(sink).Some?)
    {
      if sink.Some? {
        ended := true;
      }
    }
  }
}
