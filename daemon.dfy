/**
 * The daemon's connection loop (src/daemon.rs:109-148): each accepted
 * connection's payload is split into tokens, its first token chooses at most
 * one sink primitive, and a fixed message is appended to the log. The log is
 * the text of the append-only log file; the first accept error ends the loop.
 */
module Daemon {
  import opened Wrappers
  import opened Tokens
  import opened Media

  /** The one file `enqueue` ever queues, whatever argument it was given. */
  const FixedSong: string := "/home/user/codes/songs/01 Psycho CEO.mp3"

  /** What one connection produces: the text appended to the log and the sink call, if any. */
  datatype Reply = Reply(log: string, call: Option<Call>)

  /** The result of one accept on the listening socket. */
  datatype Incoming = Accepted(payload: string) | AcceptFailed

  /** The fixed song passes the extension gate, so `Queue`'s precondition holds. */
  lemma FixedSongDecodes()
    ensures Decode(FixedSong) == Ok(Mp3(FixedSong))
  {
    DecodeAcceptsMp3("/home/user/codes/songs/01 Psycho CEO");
    assert "/home/user/codes/songs/01 Psycho CEO" + ".mp3" == FixedSong;
  }

  /**
   * The reply to one payload. Only `play`, `pause` and `enqueue` with an
   * argument touch the sink; `stop` is never dispatched, and `enqueue`
   * always queues the fixed song.
   */
  function Dispatch(payload: string): (r: Reply)
    ensures r.call != Some(Stopped)
    ensures r.call.Some? ==> r.call.value in {Played, Paused, Appended(Mp3(FixedSong))}
    ensures r.call.Some? <==> (Split(payload) != [] &&
      (Split(payload)[0] in {"play", "pause"} || (Split(payload)[0] == "enqueue" && |Split(payload)| > 1)))
  {
    var parts := Split(payload);
    if |parts| == 0 then Reply("no command provided", None)
    else match parts[0]
      case "play" => Reply("playing", Some(Played))
      case "pause" => Reply("pausing", Some(Paused))
      case "enqueue" =>
        if |parts| > 1 then Reply("enqueueing: " + payload, Some(Appended(Mp3(FixedSong))))
        else Reply("no song provided", None)
      case _ => Reply("unknown command: " + payload, None)
  }

  /** Empty or all-whitespace input, and only that, logs "no command provided" and calls nothing. */
  lemma DispatchNoCommand(payload: string)
    ensures Blank(payload) <==> Dispatch(payload) == Reply("no command provided", None)
  {
    SplitEmptyIffBlank(payload);
    var parts := Split(payload);
    if parts != [] && parts[0] !in {"play", "pause"} {
      if parts[0] == "enqueue" {
        if |parts| > 1 {
          assert Dispatch(payload).log[0] == 'e';
        }
      } else {
        assert Dispatch(payload).log[0] == 'u';
      }
    }
  }

  /** `play` as the first token, after any leading whitespace, plays once; later tokens are ignored. */
  lemma DispatchPlay(w: string, rest: string)
    requires Blank(w) && AtBoundary(rest)
    ensures Dispatch(w + "play" + rest) == Reply("playing", Some(Played))
  {
    SplitSkipsBlank(w, "play" + rest);
    SplitWordThen("play", rest);
    assert w + "play" + rest == w + ("play" + rest);
  }

  /** `pause` as the first token pauses once; later tokens are ignored. */
  lemma DispatchPause(w: string, rest: string)
    requires Blank(w) && AtBoundary(rest)
    ensures Dispatch(w + "pause" + rest) == Reply("pausing", Some(Paused))
  {
    SplitSkipsBlank(w, "pause" + rest);
    SplitWordThen("pause", rest);
    assert w + "pause" + rest == w + ("pause" + rest);
  }

  /** `enqueue` is always the first token of a payload that starts with it. */
  lemma SplitEnqueue(w: string, rest: string)
    requires Blank(w) && AtBoundary(rest)
    ensures Split(w + "enqueue" + rest) == ["enqueue"] + Split(rest)
  {
    SplitSkipsBlank(w, "enqueue" + rest);
    SplitWordThen("enqueue", rest);
    assert w + "enqueue" + rest == w + ("enqueue" + rest);
  }

  /** `enqueue` with nothing but whitespace after it logs "no song provided" and calls nothing. */
  lemma DispatchEnqueueNoSong(w: string, rest: string)
    requires Blank(w) && Blank(rest)
    ensures Dispatch(w + "enqueue" + rest) == Reply("no song provided", None)
  {
    SplitEnqueue(w, rest);
    SplitEmptyIffBlank(rest);
  }

  /**
   * `enqueue` followed by any further token logs the whole raw payload and
   * queues the fixed song, whatever that token was.
   */
  lemma DispatchEnqueueSong(w: string, rest: string)
    requires Blank(w) && AtBoundary(rest) && !Blank(rest)
    ensures Dispatch(w + "enqueue" + rest) ==
      Reply("enqueueing: " + (w + "enqueue" + rest), Some(Appended(Mp3(FixedSong))))
  {
    SplitEnqueue(w, rest);
    SplitEmptyIffBlank(rest);
  }

  /** The message "enqueue " + x, as the client builds it, queues exactly when x is not blank. */
  lemma DispatchEnqueueMessage(x: string)
    ensures Blank(x) ==> Dispatch("enqueue " + x) == Reply("no song provided", None)
    ensures !Blank(x) ==> (Dispatch("enqueue " + x) ==
      Reply("enqueueing: enqueue " + x, Some(Appended(Mp3(FixedSong)))))
  {
    var m := "enqueue " + x;
    var rest := " " + x;
    assert m == "" + "enqueue" + rest;
    BlankAfterSpace(x);
    if Blank(x) {
      DispatchEnqueueNoSong("", rest);
    } else {
      DispatchEnqueueSong("", rest);
      assert Dispatch(m) == Reply("enqueueing: " + m, Some(Appended(Mp3(FixedSong))));
      assert "enqueueing: " + m == "enqueueing: enqueue " + x;
    }
  }

  /**
   * Any other first token (`stop`, `Play`, ...) logs "unknown command: "
   * followed by the raw payload and leaves the sink untouched.
   */
  lemma DispatchUnknown(w: string, t: string, rest: string)
    requires Blank(w) && IsWord(t) && AtBoundary(rest)
    requires t !in {"play", "pause", "enqueue"}
    ensures Dispatch(w + t + rest) == Reply("unknown command: " + (w + t + rest), None)
  {
    SplitSkipsBlank(w, t + rest);
    SplitWordThen(t, rest);
    assert w + t + rest == w + (t + rest);
  }

  /** The choice of sink call never depends on how the tokens are spaced. */
  lemma DispatchIgnoresSpacing(gaps: seq<string>, gaps': seq<string>, ts: seq<string>)
    requires Separates(gaps, |ts|) && Separates(gaps', |ts|)
    requires forall i :: 0 <= i < |ts| ==> IsWord(ts[i])
    ensures Dispatch(Layout(gaps, ts)).call == Dispatch(Layout(gaps', ts)).call
  {
    SpacingIrrelevant(gaps, gaps', ts);
  }

  /** The sink calls of one reply, as a sequence of zero or one calls. */
  function CallList(call: Option<Call>): (cs: seq<Call>) {
    match call
    case None => []
    case Some(c) => [c]
  }

  /** The payloads the loop handles: those accepted before the first accept error. */
  function Served(incoming: seq<Incoming>): (ps: seq<string>)
    ensures |ps| <= |incoming|
  {
    if incoming == [] then []
    else match incoming[0]
      case AcceptFailed => []
      case Accepted(p) => [p] + Served(incoming[1..])
  }

  /**
   * The log text written for a run of payloads: the replies' messages,
   * unseparated, in order. Every connection writes a non-empty message.
   */
  function Transcript(ps: seq<string>): (log: string)
    ensures |log| >= |ps|
  {
    if ps == [] then [] else Dispatch(ps[0]).log + Transcript(ps[1..])
  }

  /** The sink calls made for a run of payloads, in order. */
  function CallsOf(ps: seq<string>): (cs: seq<Call>) {
    if ps == [] then [] else CallList(Dispatch(ps[0]).call) + CallsOf(ps[1..])
  }

  /**
   * What is served is exactly the payloads of the unbroken run of accepted
   * connections at the front of the stream, in arrival order: the run ends
   * with the stream or at an accept error.
   */
  lemma {:induction false} ServedIsAcceptedPrefix(incoming: seq<Incoming>)
    ensures forall i :: 0 <= i < |Served(incoming)| ==> incoming[i] == Accepted(Served(incoming)[i])
    ensures |Served(incoming)| < |incoming| ==> incoming[|Served(incoming)|] == AcceptFailed
  {
    if incoming != [] && incoming[0].Accepted? {
      ServedIsAcceptedPrefix(incoming[1..]);
    }
  }

  /**
   * Each connection makes at most one sink call, and no run of payloads
   * ever stops the sink: `stop` has no handler.
   */
  lemma {:induction false} CallsPerConnection(ps: seq<string>)
    ensures |CallsOf(ps)| <= |ps|
    ensures Stopped !in CallsOf(ps)
  {
    if ps != [] {
      CallsPerConnection(ps[1..]);
    }
  }

  /**
   * Conversely, an unbroken run of accepted connections that ends with the
   * stream or at an accept error is exactly what is served.
   */
  lemma {:induction false} ServedIsTheRun(incoming: seq<Incoming>, run: seq<string>)
    requires |run| <= |incoming|
    requires forall k :: 0 <= k < |run| ==> incoming[k] == Accepted(run[k])
    requires |run| == |incoming| || incoming[|run|] == AcceptFailed
    ensures Served(incoming) == run
  {
    if run != [] {
      assert incoming[0] == Accepted(run[0]);
      ServedIsTheRun(incoming[1..], run[1..]);
    }
  }

  /** Connections accepted before the first error are served in arrival order. */
  lemma {:induction false} ServedAppend(xs: seq<Incoming>, ys: seq<Incoming>)
    requires forall i :: 0 <= i < |xs| ==> xs[i].Accepted?
    ensures Served(xs + ys) == Served(xs) + Served(ys)
  {
    if xs == [] {
      assert xs + ys == ys;
    } else {
      assert (xs + ys)[1..] == xs[1..] + ys;
      ServedAppend(xs[1..], ys);
    }
  }

  /** Nothing arriving after an accept error is ever served. */
  lemma {:induction false} ServedStopsAtFailure(xs: seq<Incoming>, ys: seq<Incoming>)
    ensures Served(xs + [AcceptFailed] + ys) == Served(xs)
  {
    if xs == [] {
      assert (xs + [AcceptFailed] + ys)[0] == AcceptFailed;
    } else {
      assert (xs + [AcceptFailed] + ys)[1..] == xs[1..] + [AcceptFailed] + ys;
      ServedStopsAtFailure(xs[1..], ys);
    }
  }

  /** The log for two runs of payloads is the log of the first followed by that of the second. */
  lemma {:induction false} TranscriptAppend(ps: seq<string>, qs: seq<string>)
    ensures Transcript(ps + qs) == Transcript(ps) + Transcript(qs)
  {
    if ps == [] {
      assert ps + qs == qs;
    } else {
      assert (ps + qs)[1..] == ps[1..] + qs;
      TranscriptAppend(ps[1..], qs);
    }
  }

  /** The sink calls for two runs of payloads are those of the first followed by those of the second. */
  lemma {:induction false} CallsOfAppend(ps: seq<string>, qs: seq<string>)
    ensures CallsOf(ps + qs) == CallsOf(ps) + CallsOf(qs)
  {
    if ps == [] {
      assert ps + qs == qs;
    } else {
      assert (ps + qs)[1..] == ps[1..] + qs;
      CallsOfAppend(ps[1..], qs);
    }
  }

  /** The log text and the sink calls of a single payload are those of its reply. */
  lemma SingleReply(p: string)
    ensures Transcript([p]) == Dispatch(p).log
    ensures CallsOf([p]) == CallList(Dispatch(p).call)
  {
    assert [p][1..] == [];
  }

  /** Regrouping a concatenation of three sequences. */
  lemma AppendAssoc<T>(a: seq<T>, b: seq<T>, c: seq<T>)
    ensures (a + b) + c == a + (b + c)
  {
  }

  /** The running daemon: its log file's contents and the sink it owns. */
  class Server {
    var log: string
    const sink: Sink

    /** A server appending to a log that already holds `existing`. */
    constructor (sink: Sink, existing: string)
      ensures this.sink == sink && log == existing
    {
      this.sink := sink;
      log := existing;
    }

    /**
     * Handles one accepted connection's payload: the log gains the reply's
     * message and the sink the reply's call, if any.
     */
    method Respond(payload: string)
      modifies this, sink
      ensures log == old(log) + Transcript([payload])
      ensures sink.calls == old(sink.calls) + CallsOf([payload])
    {
      SingleReply(payload);
      var parts := Split(payload);
      if |parts| > 0 {
        var action := parts[0];
        if action == "play" {
          log := log + "playing";
          Play(sink);
        } else if action == "pause" {
          log := log + "pausing";
          Pause(sink);
        } else if action == "enqueue" {
          if |parts| > 1 {
            log := log + ("enqueueing: " + payload);
            FixedSongDecodes();
            Queue(sink, FixedSong);
          } else {
            log := log + "no song provided";
          }
        } else {
          log := log + ("unknown command: " + payload);
        }
      } else {
        log := log + "no command provided";
      }
    }

    /**
     * The accept loop over a finite stream of accept results: every
     * connection up to the first accept error is handled in order, and that
     * error ends the loop.
     */
    method Serve(incoming: seq<Incoming>)
      modifies this, sink
      ensures log == old(log) + Transcript(Served(incoming))
      ensures sink.calls == old(sink.calls) + CallsOf(Served(incoming))
    {
      var i := 0;
      ghost var done: seq<string> := [];
      while i < |incoming|
        invariant i <= |incoming| && |done| == i
        invariant forall k :: 0 <= k < i ==> incoming[k] == Accepted(done[k])
        invariant log == old(log) + Transcript(done)
        invariant sink.calls == old(sink.calls) + CallsOf(done)
      {
        match incoming[i]
        case AcceptFailed =>
          ServedIsTheRun(incoming, done);
          return;
        case Accepted(p) =>
          Respond(p);
          TranscriptAppend(done, [p]);
          CallsOfAppend(done, [p]);
          assert log == old(log) + Transcript(done + [p]) by {
            AppendAssoc(old(log), Transcript(done), Transcript([p]));
          }
          assert sink.calls == old(sink.calls) + CallsOf(done + [p]) by {
            AppendAssoc(old(sink.calls), CallsOf(done), CallsOf([p]));
          }
          done := done + [p];
          i := i + 1;
      }
      ServedIsTheRun(incoming, done);
    }
  }
}
