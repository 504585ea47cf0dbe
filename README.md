# muse: command dispatch, extension gate and client messages

muse is a small music daemon. A client binary (`src/main.rs`) turns its
command-line arguments into one text message. It writes that message to a
Unix socket. The daemon (`src/daemon.rs`) accepts connections one at a time.
It reads each payload, splits it on whitespace, and lets the first token
choose at most one primitive of the audio adapter (`src/media.rs`): play,
pause or queue a file. It appends a status message to its log file; two of these messages echo the raw payload.

This project models the decision logic of those three files:

- `media.dfy` (module `Media`) covers `decode`'s file-extension gate. The
  extension is what follows the last `.`. Only the exact string `mp3` decodes.
  Every other extension fails with a fixed message that names the file. The
  playback sink is a `Sink` object that records the calls made on it:
  `Played`, `Paused`, `Stopped` and `Appended(source)`. `Play`, `Pause`,
  `Queue` and `Stop` each add exactly one call. `Queue` requires a name that
  decodes, because the source unwraps the decode result.
- `tokens.dfy` (module `Tokens`) covers `split_whitespace`. Whitespace is the
  Unicode White_Space set that Rust's `char::is_whitespace` uses. `Split` gives
  the maximal non-whitespace runs. `SplitLayout` proves the converse: any words
  laid out between whitespace gaps split back into exactly those words.
- `daemon.dfy` (module `Daemon`) covers the connection loop. `Dispatch` is
  the reply to one payload: the text appended to the log and the optional
  sink call. `Server` holds the log text and the sink. `Server.Respond`
  handles one payload. `Server.Serve` is the accept loop over a finite stream
  of accept results. It serves connections in order and stops at the first
  accept error. The log it leaves is the unseparated concatenation of the
  replies' messages.
- `client.dfy` (module `Client`) covers `main`'s argument dispatch. `Invoke`
  maps the argument vector to the effect of the run. The lemmas beside it
  compose each message the client can send with `Dispatch`.
- `wrappers.dfy` holds `Option` and `Result`.

The model keeps the source's quirks. `enqueue` ignores its argument and
always queues `/home/user/codes/songs/01 Psycho CEO.mp3`. `stop` is sent by
the client, but the daemon has no handler for it, so it is logged as
`unknown command: stop`. A bare name `mp3` with no dot passes the extension
gate. An accept error ends the loop.

## Model

| member | source | states |
|---|---|---|
| `Media.Extension` | src/media.rs:16 | the extension is the longest dot-free suffix: it is preceded by a `.` or is the whole name |
| `Media.ExtensionAfterLastDot` | src/media.rs:16 | whatever precedes the last `.`, the piece after it is the extension |
| `Media.ExtensionWithoutDot` | src/media.rs:16 | a name without any `.` is its own extension |
| `Media.Decode` | src/media.rs:15-19 | a name passes the extension gate exactly when its extension is `mp3`, and then stands for a source of that file; any other extension fails with the fixed message followed by the file name |
| `Media.DecodeAcceptsMp3` | src/media.rs:17 | every name ending in `.mp3` decodes to a source for that name |
| `Media.DecodeRejectsOtherExtensions` | src/media.rs:18 | any other final piece, including `MP3` and the empty piece after a trailing dot, fails with `Unknown file extension encountered when decoding ` and the name |
| `Media.DecodeWithoutDot` | src/media.rs:16-18 | a name with no `.` decodes exactly when it is the bare word `mp3` |
| `Media.Sink.constructor` | src/daemon.rs:104-106 | a new sink has had no calls made on it |
| `Media.Play` | src/media.rs:22-24 | exactly one play call is added to the sink, nothing else changes |
| `Media.Pause` | src/media.rs:26-28 | exactly one pause call is added to the sink, nothing else changes |
| `Media.Queue` | src/media.rs:30-32 | requires a name that decodes, since a failed decode aborts; exactly one append of that file's source is added |
| `Media.Stop` | src/media.rs:34-36 | exactly one stop call is added to the sink, nothing else changes |
| `Tokens.AsciiSpaces` | src/daemon.rs:119 | the whitespace used for splitting is Rust's `char::is_whitespace` (the Unicode White_Space set): among ASCII it is exactly tab, line feed, vertical tab, form feed, carriage return and space, and no whitespace lies above U+3000 |
| `Tokens.WordLength` | src/daemon.rs:119 | the length of the leading non-whitespace run, which ends at whitespace or at the end |
| `Tokens.Split` | src/daemon.rs:119 | every token is a non-empty run without whitespace |
| `Tokens.SplitSkipsBlank` | src/daemon.rs:119 | leading whitespace never changes the tokens |
| `Tokens.SplitWordThen` | src/daemon.rs:119 | a word followed by whitespace or the end is one whole token, and the rest is split on its own |
| `Tokens.SplitLayout` | src/daemon.rs:119 | words laid out between whitespace gaps (non-empty between words) split back into exactly those words |
| `Tokens.SpacingIrrelevant` | src/daemon.rs:119 | two layouts of the same words, with any amount of leading, trailing or separating whitespace, split alike |
| `Tokens.SplitEmptyIffBlank` | src/daemon.rs:119 | a text has no tokens exactly when it is all whitespace |
| `Daemon.FixedSongDecodes` | src/daemon.rs:134 | the hard-coded song passes the extension gate, so `Queue`'s precondition holds |
| `Daemon.Dispatch` | src/daemon.rs:119-145 | a sink call is made exactly when the first token is `play` or `pause`, or is `enqueue` with a second token; `stop` is never dispatched and only the fixed song is ever queued |
| `Daemon.DispatchNoCommand` | src/daemon.rs:143-145 | empty or all-whitespace input, and only that, logs `no command provided` and makes no call |
| `Daemon.DispatchPlay` | src/daemon.rs:123-126 | `play` as first token after any leading whitespace logs `playing` and plays once; later tokens are ignored |
| `Daemon.DispatchPause` | src/daemon.rs:127-130 | `pause` as first token logs `pausing` and pauses once; later tokens are ignored |
| `Daemon.SplitEnqueue` | src/daemon.rs:119-131 | a payload starting with the word `enqueue` has it as first token, followed by the rest's tokens |
| `Daemon.DispatchEnqueueNoSong` | src/daemon.rs:135-137 | `enqueue` followed only by whitespace logs `no song provided` and makes no call |
| `Daemon.DispatchEnqueueSong` | src/daemon.rs:131-134 | `enqueue` with a further token logs `enqueueing: ` and the raw payload, and queues the fixed song whatever the token was |
| `Daemon.DispatchEnqueueMessage` | src/daemon.rs:131-137 | `enqueue ` + x queues exactly when x is not all whitespace, logging the whole message |
| `Daemon.DispatchUnknown` | src/daemon.rs:139-141 | any other first token (such as `stop` or `Play`) logs `unknown command: ` and the raw payload and makes no call |
| `Daemon.DispatchIgnoresSpacing` | src/daemon.rs:119-122 | the sink call chosen never depends on how the tokens are spaced |
| `Daemon.Served` | src/daemon.rs:109-114 | no more payloads are served than connections arrive |
| `Daemon.ServedIsAcceptedPrefix` | src/daemon.rs:109-115 | what is served is the payloads of the unbroken run of accepted connections at the front, ending with the stream or at an accept error |
| `Daemon.ServedIsTheRun` | src/daemon.rs:109-115 | conversely, such a run is exactly what is served |
| `Daemon.ServedAppend` | src/daemon.rs:109-115 | connections accepted before the first error are served in arrival order, followed by what is served after them |
| `Daemon.ServedStopsAtFailure` | src/daemon.rs:110-114 | nothing arriving after an accept error is ever served |
| `Daemon.Transcript` | src/daemon.rs:115-146 | the log text of a run of payloads is the replies' messages in order, and every connection writes at least one character |
| `Daemon.TranscriptAppend` | src/daemon.rs:109-148 | the log for two runs of payloads is the first's log followed by the second's, with no separator |
| `Daemon.CallsOfAppend` | src/daemon.rs:109-148 | the sink calls for two runs of payloads are the first's followed by the second's |
| `Daemon.CallsPerConnection` | src/daemon.rs:119-145 | at most one sink call per connection, and never a stop call |
| `Daemon.SingleReply` | src/daemon.rs:115-146 | one payload's log text and sink calls are those of its reply |
| `Daemon.Server.constructor` | src/daemon.rs:96-106 | the server appends to a log holding its earlier contents and owns the given sink |
| `Daemon.Server.Respond` | src/daemon.rs:115-146 | one connection appends its reply's message to the log and its reply's call, if any, to the sink |
| `Daemon.Server.Serve` | src/daemon.rs:109-148 | the loop appends the served payloads' messages to the log and their calls to the sink, in arrival order, stopping at the first accept error |
| `Client.Invoke` | src/main.rs:60-106 | usage exactly for a lone program name; a panic for an empty vector or `enqueue` without an argument; the daemon is started exactly for `start`; a message exactly for `stop`, `play`, `pause` (that literal) and `enqueue X` (`enqueue ` + X); nothing happens exactly for any other command |
| `Client.StartSendsNothing` | src/main.rs:83-89 | `start` starts the daemon and sends no message |
| `Client.ClientPlay` | src/main.rs:94-97 | the client sends `play`, which the daemon logs as `playing` and turns into one play call |
| `Client.ClientPause` | src/main.rs:98-101 | the client sends `pause`, which the daemon logs as `pausing` and turns into one pause call |
| `Client.ClientStop` | src/main.rs:90-93 | the client sends `stop`, which the daemon logs as `unknown command: stop` with no sink call |
| `Client.ClientEnqueue` | src/main.rs:102-104 | the client sends `enqueue X`; the daemon queues the fixed song exactly when X holds a non-whitespace character, else logs `no song provided` |

## Left out

- Process detachment (`fork`, `setsid`, creating and entering the working directory, redirecting standard I/O): operating-system process control.
- Removing and binding the socket, setting its permissions, and opening the log file: filesystem and socket I/O. The log is an in-memory string that starts with the file's earlier contents.
- Audio device and sink construction, and what `rodio` does with play, pause, append and stop: a foreign library. The sink is the sequence of calls made on it.
- `File::open(...).unwrap()` in `decode`, which can abort before the extension is looked at: filesystem I/O. A decoded source is identified by its file name.
- `Decoder::new(reader).unwrap()` inside `decode` (src/media.rs:8): a file named `*.mp3` whose contents the audio library cannot decode aborts the process. The model only checks the extension, so `Media.Decode` and `Media.Queue` succeed for every name ending in `mp3`.
- Queueing the fixed song when that file is missing or cannot be decoded: in the program, `decode` then panics (src/media.rs:8, 12), so an `enqueue` with an argument ends the loop right after writing its `enqueueing: ` message. The model assumes the file opens and decodes, so `Daemon.Server.Serve` always goes on to the next connection.
- Errors from writing the log: every `file.write_all(...)` result is discarded (src/daemon.rs:124, 128, 133, 136, 140, 144), so a failed or partial write loses or truncates that connection's message while the sink call still happens. `Daemon.Transcript` and `Daemon.Server.Serve` describe the log only when every write succeeds.
- Reading the payload with `read_to_string`, whose result is ignored: each accepted connection carries an already decoded string.
- `Daemon.Server.Serve`: takes a finite sequence of accept results. The source's listener yields them without end, so the model covers every finite prefix of a run.
- `env::args()` panics on an argument that is not valid Unicode (src/main.rs:57). The model's argument vector is already a sequence of strings, so that panic is not represented.
- The client's `send` socket write, the spawning of the daemon task and the five-second sleep for `start`, the usage text, and the unused `prompt` helper: I/O, timing and the async runtime. `Client.Invoke` names which effect happens.
