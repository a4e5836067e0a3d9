/**
 * The rates server's operator shell and its per-client echo session
 * (demos/rates_app/rates_server.py).
 *
 * The shell holds at most one handle to a server process. Processes are
 * identified by launch order; the shell's view of the world records, for
 * every process it has launched, whether that process is still alive, so that
 * `is_alive()` is a lookup and a process that dies on its own (a failed bind,
 * a crash) is an input event. What the shell prints is returned as lines.
 */
module RatesServer {
  import opened Wrappers

  /** A `multiprocessing.Process` handle: the launch number of its process. */
  datatype Handle = Handle(pid: nat)

  /** The liveness of each launched process, and the handle the shell holds. */
  datatype Console = Console(alive: seq<bool>, server: Option<Handle>)

  /** What a command leaves behind: the new shell state and the printed lines. */
  datatype Reply = Reply(console: Console, lines: seq<string>)

  const AlreadyRunning := "server is already running"
  const Started := "server started"
  const Stopped := "server stopped"
  const NotRunning := "server is not running"
  const Running := "server is running"

  /** The shell at start-up: nothing launched, no handle. */
  const Initial := Console([], None)

  /** `server_process and server_process.is_alive()`. */
  predicate IsRunning(c: Console)
  {
    c.server.Some? && c.server.value.pid < |c.alive| && c.alive[c.server.value.pid]
  }

  /** The invariant that rules out orphaned servers: any live process the
      shell launched is the one its handle refers to. */
  predicate SingleServer(c: Console)
  {
    forall pid :: 0 <= pid < |c.alive| && c.alive[pid] ==> c.server == Some(Handle(pid))
  }

  /** No process the shell launched is still alive. */
  predicate NoLiveServer(c: Console)
  {
    forall pid :: 0 <= pid < |c.alive| ==> !c.alive[pid]
  }

  /** `process.terminate()` on the held process when it is alive; the handle
      itself is kept. */
  function TerminateIfRunning(c: Console): (r: Console)
    ensures r.server == c.server && |r.alive| == |c.alive|
    ensures !IsRunning(r)
    ensures forall pid :: 0 <= pid < |c.alive| ==>
      r.alive[pid] == (c.alive[pid] && !(IsRunning(c) && c.server == Some(Handle(pid))))
  {
    if IsRunning(c) then Console(c.alive[c.server.value.pid := false], c.server) else c
  }

  /** `command_start_server`: launch a process unless the held one is alive.
      Either way the returned handle refers to a live process. */
  function StartServer(c: Console): (r: Reply)
    ensures r.console.server.Some? && IsRunning(r.console)
    ensures |r.console.alive| == |c.alive| + (if IsRunning(c) then 0 else 1)
    ensures r.console.alive[..|c.alive|] == c.alive
    ensures IsRunning(c) ==> r.console.server == c.server
    ensures !IsRunning(c) ==> r.console.server.value.pid == |c.alive|
    ensures r.lines == [if IsRunning(c) then AlreadyRunning else Started]
  {
    if IsRunning(c) then Reply(c, [AlreadyRunning])
    else Reply(Console(c.alive + [true], Some(Handle(|c.alive|))), [Started])
  }

  /** `command_stop_server`: terminate the held process if it is alive; the
      handle is dropped in every case. */
  function StopServer(c: Console): (r: Reply)
    ensures r.console.server == None && !IsRunning(r.console)
    ensures |r.console.alive| == |c.alive|
    ensures forall pid :: 0 <= pid < |c.alive| ==>
      r.console.alive[pid] == (c.alive[pid] && !(IsRunning(c) && c.server == Some(Handle(pid))))
    ensures r.lines == [if IsRunning(c) then Stopped else NotRunning]
  {
    if IsRunning(c) then Reply(Console(TerminateIfRunning(c).alive, None), [Stopped])
    else Reply(Console(c.alive, None), [NotRunning])
  }

  /** `command_server_status`: the line reporting whether the server runs. */
  function ServerStatus(c: Console): (line: string)
    ensures line == Running <==> IsRunning(c)
    ensures line == NotRunning <==> !IsRunning(c)
  {
    if IsRunning(c) then Running else NotRunning
  }

  /** A process of the shell's ends on its own. */
  function ProcessExits(c: Console, pid: nat): (r: Console)
    ensures r.server == c.server && |r.alive| == |c.alive|
    ensures forall p :: 0 <= p < |c.alive| ==> r.alive[p] == (c.alive[p] && p != pid)
  {
    if pid < |c.alive| then Console(c.alive[pid := false], c.server) else c
  }

  /** What the shell receives: a command line, Ctrl-C at the prompt, or the
      death of one of its server processes. */
  datatype Input = Line(text: string) | Interrupt | ServerExit(pid: nat)

  /** How the shell's loop ended: `exit`, KeyboardInterrupt, or input running
      out (EOFError, which the shell does not catch). */
  datatype Ending = Exited | Interrupted | EndOfInput

  datatype Session = Session(console: Console, printed: seq<string>, ending: Ending)

  /** The reference definition of `main`'s loop, from a shell state and the
      lines printed so far. */
  function RunShell(c: Console, printed: seq<string>, inputs: seq<Input>): Session
    decreases |inputs|
  {
    if inputs == [] then Session(c, printed, EndOfInput)
    else match inputs[0]
      case Interrupt => Session(TerminateIfRunning(c), printed, Interrupted)
      case ServerExit(pid) => RunShell(ProcessExits(c, pid), printed, inputs[1..])
      case Line(command) =>
        if command == "start" then
          var r := StartServer(c); RunShell(r.console, printed + r.lines, inputs[1..])
        else if command == "stop" then
          var r := StopServer(c); RunShell(r.console, printed + r.lines, inputs[1..])
        else if command == "status" then RunShell(c, printed + [ServerStatus(c)], inputs[1..])
        else if command == "exit" then Session(TerminateIfRunning(c), printed, Exited)
        else RunShell(c, printed, inputs[1..])
  }

  /**
   * `main`: read commands until `exit` or an interrupt. At every step at most
   * one launched process is alive, and when the loop ends by `exit` or an
   * interrupt none is.
   */
  method RunConsole(inputs: seq<Input>) returns (s: Session)
    ensures s == RunShell(Initial, [], inputs)
    ensures SingleServer(s.console)
    ensures s.ending != EndOfInput ==> NoLiveServer(s.console)
  {
    var serverProcess := Initial;
    var printed: seq<string> := [];
    var i := 0;
    while i < |inputs|
      invariant 0 <= i <= |inputs|
      invariant RunShell(Initial, [], inputs) == RunShell(serverProcess, printed, inputs[i..])
      invariant SingleServer(serverProcess)
    {
      assert inputs[i..][1..] == inputs[i + 1..];
      match inputs[i] {
        case Interrupt =>
          serverProcess := TerminateIfRunning(serverProcess);
          return Session(serverProcess, printed, Interrupted);
        case ServerExit(pid) =>
          serverProcess := ProcessExits(serverProcess, pid);
        case Line(command) =>
          if command == "start" {
            var r := StartServer(serverProcess);
            serverProcess, printed := r.console, printed + r.lines;
          } else if command == "stop" {
            var r := StopServer(serverProcess);
            serverProcess, printed := r.console, printed + r.lines;
          } else if command == "status" {
            printed := printed + [ServerStatus(serverProcess)];
          } else if command == "exit" {
            serverProcess := TerminateIfRunning(serverProcess);
            return Session(serverProcess, printed, Exited);
          }
      }
      i := i + 1;
    }
    s := Session(serverProcess, printed, EndOfInput);
  }

  /** Every shell step keeps at most one live process, the held one. */
  lemma StepsKeepSingleServer(c: Console, pid: nat)
    requires SingleServer(c)
    ensures SingleServer(StartServer(c).console)
    ensures SingleServer(StopServer(c).console)
    ensures SingleServer(TerminateIfRunning(c))
    ensures SingleServer(ProcessExits(c, pid))
  {
  }

  /** Whatever the inputs, the shell never holds more than one live server,
      and `exit` or an interrupt leaves no server process alive. */
  lemma {:induction false} NoOrphanedServer(c: Console, printed: seq<string>, inputs: seq<Input>)
    requires SingleServer(c)
    ensures SingleServer(RunShell(c, printed, inputs).console)
    ensures RunShell(c, printed, inputs).ending != EndOfInput ==> NoLiveServer(RunShell(c, printed, inputs).console)
    decreases |inputs|
  {
    if inputs != [] {
      match inputs[0]
      case Interrupt =>
      case ServerExit(pid) =>
        NoOrphanedServer(ProcessExits(c, pid), printed, inputs[1..]);
      case Line(command) =>
        if command == "start" {
          NoOrphanedServer(StartServer(c).console, printed + StartServer(c).lines, inputs[1..]);
        } else if command == "stop" {
          NoOrphanedServer(StopServer(c).console, printed + StopServer(c).lines, inputs[1..]);
        } else if command == "status" {
          NoOrphanedServer(c, printed + [ServerStatus(c)], inputs[1..]);
        } else if command != "exit" {
          NoOrphanedServer(c, printed, inputs[1..]);
        }
    }
  }

  /** A command other than start, stop, status and exit changes nothing and
      prints nothing. */
  lemma UnknownCommandIgnored(c: Console, printed: seq<string>, command: string, rest: seq<Input>)
    requires command !in {"start", "stop", "status", "exit"}
    ensures RunShell(c, printed, [Line(command)] + rest) == RunShell(c, printed, rest)
  {
  }

  /** `exit` ends the loop at once: the held server is terminated, nothing is
      printed, and later input is never read. */
  lemma ExitEndsShell(c: Console, printed: seq<string>, rest: seq<Input>)
    ensures RunShell(c, printed, [Line("exit")] + rest) == Session(TerminateIfRunning(c), printed, Exited)
    ensures !IsRunning(RunShell(c, printed, [Line("exit")] + rest).console)
  {
  }

  /** An interrupt terminates a live server before the shell exits. */
  lemma InterruptStopsServer(c: Console, printed: seq<string>, rest: seq<Input>)
    requires SingleServer(c)
    ensures RunShell(c, printed, [Interrupt] + rest) == Session(TerminateIfRunning(c), printed, Interrupted)
    ensures NoLiveServer(RunShell(c, printed, [Interrupt] + rest).console)
  {
  }

  /** Starting twice launches one process: the second start reports that the
      server is already running and changes nothing. */
  lemma StartIsIdempotent(c: Console)
    ensures StartServer(StartServer(c).console) == Reply(StartServer(c).console, [AlreadyRunning])
  {
  }

  /** Stopping twice terminates at most once: the second stop reports that
      the server is not running. */
  lemma StopTwiceReportsNotRunning(c: Console)
    ensures StopServer(StopServer(c).console) == Reply(StopServer(c).console, [NotRunning])
  {
  }

  /** The greeting a client receives on connecting. */
  const Greeting := "Connected to the Rates Server"

  /**
   * `ClientConnectionThread.run`: send the greeting, then echo each message
   * read until the first empty read (the client closed the connection). Each
   * read is one whole message; `printed` is the server's `recv:` log. When
   * the messages run out before an empty one, the session is still open and
   * waiting.
   */
  method ClientSession(received: seq<string>) returns (sent: seq<string>, printed: seq<string>, closed: bool)
    ensures |sent| >= 1 && sent[0] == Greeting
    ensures |sent| - 1 <= |received| && sent[1..] == received[..|sent| - 1]
    ensures forall k :: 0 <= k < |sent| - 1 ==> received[k] != ""
    ensures closed <==> |sent| - 1 < |received|
    ensures closed ==> received[|sent| - 1] == ""
    ensures |printed| == |sent| - 1 && forall k :: 0 <= k < |printed| ==> printed[k] == "recv: " + received[k]
  {
    sent := [Greeting];
    printed := [];
    closed := false;
    var i := 0;
    while i < |received|
      invariant 0 <= i <= |received|
      invariant |sent| == i + 1 && sent[0] == Greeting && sent[1..] == received[..i]
      invariant forall k :: 0 <= k < i ==> received[k] != ""
      invariant |printed| == i && forall k :: 0 <= k < i ==> printed[k] == "recv: " + received[k]
    {
      var message := received[i];
      if message == "" {
        closed := true;
        return;
      }
      printed := printed + ["recv: " + message];
      sent := sent + [message];
      i := i + 1;
    }
  }
}
