/**
 * The part of the browser's Web Audio host that the playback controller
 * drives, seen as a log of the calls it receives and the events it fires.
 * A session is one buffer source together with the analyser it feeds; the
 * nodes of a session are named by its session id.
 */
module AudioHost {

  type SessionId = nat
  type ContextId = nat

  /** A decoded, playable buffer; decoding itself is not part of this model. */
  datatype AudioBuffer = AudioBuffer(id: nat)

  datatype HostCall =
    /** `getAudioContext()` hands out a new audio context. */
    | CreateContext(ctx: ContextId)
    /** `createBufferSource`, `createAnalyser`, the two `connect`s and `start(0)` of one session. */
    | StartSource(session: SessionId, ctx: ContextId, buffer: AudioBuffer)
    /** `source.stop()` */
    | StopSource(session: SessionId)
    /** `source.disconnect()` */
    | DisconnectSource(session: SessionId)
    /** The host fires the source's `ended` event, after a natural end or a `stop()`. */
    | SourceEnded(session: SessionId)

  /**
   * The host's state: the sessions ever started, those still audible, those
   * whose `ended` event is still to come, and the audio contexts created.
   */
  datatype Graph = Graph(started: set<SessionId>, live: set<SessionId>, pending: set<SessionId>, contexts: seq<ContextId>)

  /** The effect of one call or event on the host's state. */
  function Apply(g: Graph, c: HostCall): Graph {
    match c
    case CreateContext(ctx) => g.(contexts := g.contexts + [ctx])
    case StartSource(id, _, _) => g.(started := g.started + {id}, live := g.live + {id}, pending := g.pending + {id})
    case StopSource(id) => g.(live := g.live - {id})
    case DisconnectSource(_) => g
    case SourceEnded(id) => g.(live := g.live - {id}, pending := g.pending - {id})
  }

  /** The host's state after the calls of `log`, made in order from state `g`. */
  function Run(g: Graph, log: seq<HostCall>): Graph
    decreases |log|
  {
    if log == [] then g else Run(Apply(g, log[0]), log[1..])
  }

  /** The host's state after a whole log, from a host with nothing in it. */
  function Trace(log: seq<HostCall>): Graph {
    Run(Graph({}, {}, {}, []), log)
  }

  lemma {:induction false} RunAppend(g: Graph, log: seq<HostCall>, c: HostCall)
    ensures Run(g, log + [c]) == Apply(Run(g, log), c)
    decreases |log|
  {
    if log != [] {
      assert (log + [c])[1..] == log[1..] + [c];
      RunAppend(Apply(g, log[0]), log[1..], c);
    }
  }

  /** Appending a call to the log applies it to the state reached so far. */
  lemma TraceAppend(log: seq<HostCall>, c: HostCall)
    ensures Trace(log + [c]) == Apply(Trace(log), c)
  {
    RunAppend(Graph({}, {}, {}, []), log, c);
  }

  /**
   * Every audible session still has its `ended` event to come, and only
   * started sessions are either.
   */
  predicate Consistent(g: Graph) {
    g.live <= g.pending <= g.started
  }

  /** Whatever the host is told, a consistent state stays consistent. */
  lemma {:induction false} RunConsistent(g: Graph, log: seq<HostCall>)
    requires Consistent(g)
    ensures Consistent(Run(g, log))
    decreases |log|
  {
    if log != [] {
      RunConsistent(Apply(g, log[0]), log[1..]);
    }
  }

  /** Whatever the host is told, its state is consistent. */
  lemma TraceConsistent(log: seq<HostCall>)
    ensures Consistent(Trace(log))
  {
    RunConsistent(Graph({}, {}, {}, []), log);
  }
}
