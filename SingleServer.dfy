/** The single-agent console server (internal/server/server.go): it
    keeps the last 1000 output lines of the game server, broadcasts each
    new line to the browser sockets, replays the buffer to a socket that
    joins and passes what the socket sends to the game server's input. */
module SingleServer {
  import opened Text
  import opened History

  /** A browser socket, by identity. */
  type SocketId = int

  const BufferLimit: nat := 1000

  /** The sockets dropped over a run of lines: the union of the sockets
      that failed on each line. */
  ghost function Failures(failures: seq<set<SocketId>>): set<SocketId>
    decreases |failures|
  {
    if failures == [] then {} else Failures(failures[..|failures| - 1]) + failures[|failures| - 1]
  }

  class Server {
    var outputBuffer: seq<string>
    var connections: set<SocketId>
    /** Every line the runner has produced, in order. */
    ghost var received: seq<string>

    ghost predicate Valid()
      reads this
    {
      outputBuffer == Last(received, BufferLimit)
    }

    /** New: an empty buffer and no sockets (the output goroutine it
        starts is `HandleRunnerOutput`). */
    constructor ()
      ensures outputBuffer == [] && connections == {} && received == []
      ensures Valid()
    {
      outputBuffer, connections, received := [], {}, [];
    }

    /** One pass of handleRunnerOutput: store the line, trim the buffer
        to its last 1000 lines, then write the line to every socket; the
        sockets whose write fails (`failed`) are closed and dropped, the
        others stay. Result: the sockets the line reached. */
    method HandleRunnerLine(line: string, failed: set<SocketId>) returns (delivered: set<SocketId>)
      requires Valid()
      modifies this
      ensures received == old(received) + [line]
      ensures outputBuffer == Last(old(outputBuffer) + [line], BufferLimit)
      ensures Valid()
      ensures delivered == old(connections) - failed
      ensures connections == old(connections) - failed
    {
      LastOfAppend(received, line, BufferLimit);
      received := received + [line];
      outputBuffer := outputBuffer + [line];
      if |outputBuffer| > BufferLimit {
        outputBuffer := outputBuffer[|outputBuffer| - BufferLimit..];
      }
      delivered := Broadcast(failed);
    }

    /** The broadcast loop of handleRunnerOutput over the socket set. The
        source deletes a failing socket as the loop meets it; here the
        survivors are collected and stored once the loop ends, which
        leaves the same set. */
    method Broadcast(failed: set<SocketId>) returns (delivered: set<SocketId>)
      modifies this`connections
      ensures delivered == old(connections) - failed
      ensures connections == old(connections) - failed
    {
      var pending := connections;
      var kept := connections;
      delivered := {};
      while |pending| > 0
        invariant pending <= old(connections)
        invariant delivered == (old(connections) - pending) - failed
        invariant kept == old(connections) - ((old(connections) - pending) * failed)
        decreases pending
      {
        var socket := Pick(pending);
        if socket in failed {
          kept := kept - {socket};
        } else {
          delivered := delivered + {socket};
        }
        pending := pending - {socket};
      }
      assert pending == {};
      connections := kept;
    }

    /** handleRunnerOutput over a finite run of lines, with the sockets
        that fail on each. */
    method HandleRunnerOutput(lines: seq<string>, failures: seq<set<SocketId>>)
      requires Valid() && |failures| == |lines|
      modifies this
      ensures received == old(received) + lines
      ensures outputBuffer == Last(received, BufferLimit) && |outputBuffer| <= BufferLimit
      ensures connections == old(connections) - Failures(failures)
    {
      for i := 0 to |lines|
        invariant Valid()
        invariant received == old(received) + lines[..i]
        invariant connections == old(connections) - Failures(failures[..i])
      {
        var delivered := HandleRunnerLine(lines[i], failures[i]);
        assert lines[..i + 1] == lines[..i] + [lines[i]];
        assert failures[..i + 1][..i] == failures[..i];
      }
      assert lines[..|lines|] == lines;
      assert failures[..|failures|] == failures;
    }

    /** handleWebSocket after a successful upgrade (`upgradeOk`): the
        socket is registered, sent the buffered lines in order until the
        first failed write (`replayFailAt`), and, if the whole buffer got
        through, every message it sends (`inbound`, up to the read error)
        is passed unchanged to the runner's input. On exit it is
        deregistered. Results: the lines replayed and the runner inputs. */
    method HandleWebSocket(socket: SocketId, upgradeOk: bool, replayFailAt: Option<nat>, inbound: seq<string>)
      returns (replayed: seq<string>, forwarded: seq<string>)
      modifies this
      ensures outputBuffer == old(outputBuffer) && received == old(received)
      ensures !upgradeOk ==> replayed == [] && forwarded == [] && connections == old(connections)
      ensures upgradeOk ==> connections == old(connections) - {socket}
      ensures upgradeOk && replayFailAt.Some? && replayFailAt.value < |outputBuffer| ==>
                replayed == outputBuffer[..replayFailAt.value] && forwarded == []
      ensures upgradeOk && !(replayFailAt.Some? && replayFailAt.value < |outputBuffer|) ==>
                replayed == outputBuffer && forwarded == inbound
    {
      replayed, forwarded := [], [];
      if !upgradeOk {
        return;
      }
      connections := connections + {socket};
      var i := 0;
      while i < |outputBuffer|
        invariant 0 <= i <= |outputBuffer|
        invariant replayed == outputBuffer[..i]
        invariant replayFailAt.Some? ==> i <= replayFailAt.value
        invariant connections == old(connections) + {socket}
      {
        if replayFailAt == Some(i) {
          connections := connections - {socket};
          return;
        }
        replayed := replayed + [outputBuffer[i]];
        i := i + 1;
      }
      assert replayed == outputBuffer;
      for j := 0 to |inbound|
        invariant forwarded == inbound[..j]
      {
        forwarded := forwarded + [inbound[j]];
      }
      assert inbound[..|inbound|] == inbound;
      connections := connections - {socket};
    }
  }
}
