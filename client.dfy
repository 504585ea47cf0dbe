/**
 * The command-line client (src/main.rs:55-106): the argument vector decides
 * which literal message, if any, is sent to the daemon. Printing, the socket
 * write and the daemon start-up are effects outside this model; an
 * `Invocation` names which of them happens.
 */
module Client {
  import opened Wrappers
  import opened Tokens
  import opened Media
  import opened Daemon

  /** What one run of the client does. */
  datatype Invocation =
    | Usage(program: string)  // prints the usage text naming the program; sends nothing
    | StartDaemon             // starts the daemon and waits for it
    | Send(message: string)   // writes this message to the daemon's socket
    | Ignored                 // an unrecognised command: does nothing
    | Panic                   // indexes past the end of the argument vector

  /**
   * The dispatch on `args[1]`. Usage needs `args[0]`, so an empty vector
   * panics; `enqueue` reads `args[2]`, so it panics without one.
   */
  function Invoke(args: seq<string>): (r: Invocation)
    ensures r.Usage? <==> |args| == 1
    ensures r.Usage? ==> r.program == args[0]
    ensures r.StartDaemon? <==> (|args| >= 2 && args[1] == "start")
    ensures r.Ignored? <==> (|args| >= 2 && args[1] !in {"start", "stop", "play", "pause", "enqueue"})
    ensures r.Panic? <==> (|args| == 0 || (|args| == 2 && args[1] == "enqueue"))
    ensures r.Send? <==>
      (|args| >= 2 && (args[1] in {"stop", "play", "pause"} || (args[1] == "enqueue" && |args| >= 3)))
    ensures r.Send? && args[1] != "enqueue" ==> r.message == args[1]
    ensures r.Send? && args[1] == "enqueue" ==> r.message == "enqueue " + args[2]
  {
    if |args| < 2 then
      if |args| == 0 then Panic else Usage(args[0])
    else match args[1]
      case "start" => StartDaemon
      case "stop" => Send("stop")
      case "play" => Send("play")
      case "pause" => Send("pause")
      case "enqueue" => if |args| < 3 then Panic else Send("enqueue " + args[2])
      case _ => Ignored
  }

  /** `<program> start` starts the daemon and sends nothing. */
  lemma StartSendsNothing(program: string, more: seq<string>)
    ensures Invoke([program, "start"] + more) == StartDaemon
  {
    assert ([program, "start"] + more)[1] == "start";
  }

  /** The client's `play` message makes the daemon log "playing" and play the sink once. */
  lemma ClientPlay(args: seq<string>)
    requires |args| >= 2 && args[1] == "play"
    ensures Invoke(args) == Send("play")
    ensures Dispatch("play") == Reply("playing", Some(Played))
  {
    DispatchPlay("", "");
    assert "" + "play" + "" == "play";
  }

  /** The client's `pause` message makes the daemon log "pausing" and pause the sink once. */
  lemma ClientPause(args: seq<string>)
    requires |args| >= 2 && args[1] == "pause"
    ensures Invoke(args) == Send("pause")
    ensures Dispatch("pause") == Reply("pausing", Some(Paused))
  {
    DispatchPause("", "");
    assert "" + "pause" + "" == "pause";
  }

  /** The client's `stop` message is logged as an unknown command and reaches no sink primitive. */
  lemma ClientStop(args: seq<string>)
    requires |args| >= 2 && args[1] == "stop"
    ensures Invoke(args) == Send("stop")
    ensures Dispatch("stop") == Reply("unknown command: stop", None)
  {
    DispatchUnknown("", "stop", "");
    assert "" + "stop" + "" == "stop";
  }

  /**
   * The client's `enqueue X` message queues the fixed song exactly when X
   * holds a non-whitespace character, logging the whole message; otherwise
   * the daemon logs "no song provided".
   */
  lemma ClientEnqueue(args: seq<string>)
    requires |args| >= 3 && args[1] == "enqueue"
    ensures Invoke(args) == Send("enqueue " + args[2])
    ensures Dispatch("enqueue " + args[2]).call == Some(Appended(Mp3(FixedSong))) <==> !Blank(args[2])
    ensures Blank(args[2]) ==> Dispatch("enqueue " + args[2]) == Reply("no song provided", None)
    ensures !Blank(args[2]) ==> (Dispatch("enqueue " + args[2]) ==
      Reply("enqueueing: enqueue " + args[2], Some(Appended(Mp3(FixedSong)))))
  {
    DispatchEnqueueMessage(args[2]);
  }
}
