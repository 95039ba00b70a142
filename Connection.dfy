/** One dashboard-to-agent connection (the `WrapperConnection` of
    internal/server/manager.go).

    The goroutines of the source (the `manage` loop, the read pump and
    the write pump) and the caller-facing methods are modelled as atomic
    steps on one state. `ConnState` is that state as a value and each
    `...Step` function is one step; the class `WrapperConnection` below
    holds the same state in fields and its methods are proved to perform
    exactly those steps.

    Where the `manage` goroutine is matters to the other steps, because
    the reconnect signal is an unbuffered channel and every sender uses a
    non-blocking `select`: a signal is delivered only while `manage` is
    blocked receiving it. `Phase` records that position. */
module Connection {
  import opened Text
  import Raknet

  datatype Status = Disconnected | Connecting | Connected | Error | Reconnecting

  function StatusName(s: Status): string {
    match s
    case Disconnected => "disconnected"
    case Connecting => "connecting"
    case Connected => "connected"
    case Error => "error"
    case Reconnecting => "reconnecting"
  }

  /** Where the `manage` goroutine is.
      Dialing: about to call `connect`, or sleeping before it (manager.go:256, 292).
      WaitingRetry: blocked after the last automatic attempt (manager.go:280-286).
      WaitingConnected: blocked while a transport is up (manager.go:304-317).
      Returned: the goroutine has exited (manager.go:263, 271, 282, 316). */
  datatype Phase = Dialing | WaitingRetry | WaitingConnected | Returned

  /** The `conn` field: nil, an open socket, or a socket already closed
      but not yet reset to nil (only `connect` resets it). */
  datatype Transport = NoConn | Open | Closed

  /** ConnectionStats; timestamps are opaque clock readings. */
  datatype Stats = Stats(
    connectedAt: Option<nat>,
    lastMessageAt: Option<nat>,
    messagesSent: nat,
    messagesReceived: nat,
    reconnections: nat)

  /** A dashboard client socket, by identity. */
  type ClientId = int

  const QueueCapacity: nat := 100
  const MaxReconnectAttempts: nat := 5
  /** The base backoff delay, in seconds. */
  const ReconnectDelay: nat := 5
  const AuthFailedMessage := "authentication failed"
  const MaxAttemptsMessage := "max reconnection attempts reached. Click retry to try again."

  datatype ConnState = ConnState(
    status: Status,
    error: string,
    stats: Stats,
    queue: seq<string>,         // sendChan, oldest first
    clients: set<ClientId>,     // subscriber set
    done: bool,                 // `done` has been closed
    phase: Phase,
    attempts: nat,              // manage's reconnectAttempts
    conn: Transport,
    readPumps: nat,             // read pump goroutines still running
    writePumps: nat)            // write pump goroutines still running

  predicate Waiting(p: Phase) {
    p == WaitingRetry || p == WaitingConnected
  }

  /** What every step keeps: the queue within its capacity, the attempt
      counter within its maximum, and no manager still blocked once `done`
      is closed (closing `done` wakes it and it returns). */
  predicate Inv(s: ConnState) {
    && |s.queue| <= QueueCapacity
    && s.attempts <= MaxReconnectAttempts
    && (s.done ==> !Waiting(s.phase))
  }

  /** Counters never go down. */
  predicate StatsGrow(a: Stats, b: Stats) {
    && a.messagesSent <= b.messagesSent
    && a.messagesReceived <= b.messagesReceived
    && a.reconnections <= b.reconnections
  }

  const ZeroStats := Stats(None, None, 0, 0, 0)

  /** The connection `ConnectionManager.Connect` creates: `connecting`,
      empty queue and subscriber set, `manage` about to dial. */
  function Initial(): (s: ConnState)
    ensures Inv(s)
  {
    ConnState(Connecting, "", ZeroStats, [], {}, false, Dialing, 0, NoConn, 0, 0)
  }

  /** `close` on the transport, when there is one. */
  function CloseConn(t: Transport): Transport {
    if t == NoConn then NoConn else Closed
  }

  // ---------------------------------------------------------------
  // The reconnect signal
  // ---------------------------------------------------------------

  /** The blocked `manage` receives the reconnect signal: after the last
      attempt it resets the counter (manager.go:283-285); while connected
      it closes the transport (manager.go:305-314); either way it dials next. */
  function Wake(s: ConnState): (r: ConnState)
    requires Waiting(s.phase)
    ensures r.phase == Dialing
    ensures s.phase == WaitingRetry ==> r == s.(attempts := 0, phase := Dialing)
    ensures s.phase == WaitingConnected ==> r == s.(conn := CloseConn(s.conn), phase := Dialing)
    ensures Inv(s) ==> Inv(r)
  {
    if s.phase == WaitingRetry then s.(attempts := 0, phase := Dialing)
    else s.(conn := CloseConn(s.conn), phase := Dialing)
  }

  /** A pump's non-blocking send on the reconnect signal (manager.go:397-400,
      487-490): it reaches `manage` only if `manage` is blocked on it. The
      receive with a default at manager.go:272 can never take a signal,
      because no sender ever blocks. */
  function Signal(s: ConnState): (r: ConnState)
    ensures Waiting(s.phase) ==> r == Wake(s)
    ensures !Waiting(s.phase) ==> r == s
    ensures Inv(s) ==> Inv(r)
  {
    if Waiting(s.phase) then Wake(s) else s
  }

  // ---------------------------------------------------------------
  // Retry (manager.go:135-154)
  // ---------------------------------------------------------------

  /** Manual retry. Refused while connected or connecting; otherwise it
      succeeds exactly when `manage` is blocked on the signal; failing
      that, it reports a closed connection or a retry in progress. (A
      closed `done` with a blocked manager, where Go's select would pick
      at random, is excluded by Inv.) */
  function RetryStep(s: ConnState): (r: (ConnState, Option<string>))
    ensures s.status == Connected || s.status == Connecting ==>
              r == (s, Some("connection is already " + StatusName(s.status)))
    ensures r.1 == None <==> s.status != Connected && s.status != Connecting && Waiting(s.phase)
    ensures r.1 == None ==> r.0 == Wake(s.(status := Connecting)) && r.0.status == Connecting
    ensures s.status != Connected && s.status != Connecting && !Waiting(s.phase) ==>
              r == (s, Some(if s.done then "connection is closed" else "retry already in progress"))
    ensures Inv(s) ==> Inv(r.0)
  {
    if s.status == Connected || s.status == Connecting then
      (s, Some("connection is already " + StatusName(s.status)))
    else if Waiting(s.phase) then
      (Wake(s.(status := Connecting)), None)
    else if s.done then
      (s, Some("connection is closed"))
    else
      (s, Some("retry already in progress"))
  }

  // ---------------------------------------------------------------
  // SendMessage (manager.go:171-184)
  // ---------------------------------------------------------------

  /** Non-blocking enqueue. `closedWins` resolves Go's random choice when
      both the queue has room and `done` is closed; it is read in no
      other case. */
  function SendStep(s: ConnState, message: string, closedWins: bool): (r: (ConnState, Option<string>))
    ensures s.status != Connected ==>
              r == (s, Some("wrapper is not connected (status: " + StatusName(s.status) + ")"))
    ensures r.1 == None <==>
              s.status == Connected && |s.queue| < QueueCapacity && !(s.done && closedWins)
    ensures r.1 == None ==> r.0 == s.(queue := s.queue + [message])
    ensures r.1 != None ==> r.0 == s
    ensures s.status == Connected && |s.queue| >= QueueCapacity && !s.done ==>
              r.1 == Some("message buffer full")
    ensures s.status == Connected && s.done && (closedWins || |s.queue| >= QueueCapacity) ==>
              r.1 == Some("connection is closed")
    ensures Inv(s) ==> Inv(r.0)
  {
    if s.status != Connected then
      (s, Some("wrapper is not connected (status: " + StatusName(s.status) + ")"))
    else if |s.queue| < QueueCapacity && !(s.done && closedWins) then
      (s.(queue := s.queue + [message]), None)
    else if s.done then
      (s, Some("connection is closed"))
    else
      (s, Some("message buffer full"))
  }

  /** Repeated sends with no write pump draining the queue. */
  function SendAll(s: ConnState, messages: seq<string>): (r: (ConnState, seq<Option<string>>))
    ensures |r.1| == |messages|
    decreases |messages|
  {
    if messages == [] then (s, [])
    else
      var (s1, e) := SendStep(s, messages[0], false);
      var (s2, es) := SendAll(s1, messages[1..]);
      (s2, [e] + es)
  }

  /** Capacity under a stalled remote: starting connected with `k` queued
      messages, sends are accepted while the queue has room and then
      refused as full, in submission order. */
  lemma {:induction false} SendAllFills(s: ConnState, messages: seq<string>)
    requires s.status == Connected && !s.done && |s.queue| <= QueueCapacity
    decreases |messages|
    ensures var room := QueueCapacity - |s.queue|;
      var n := if |messages| < room then |messages| else room;
      var r := SendAll(s, messages);
      && r.0 == s.(queue := s.queue + messages[..n])
      && (forall i :: 0 <= i < n ==> r.1[i] == None)
      && (forall i :: n <= i < |messages| ==> r.1[i] == Some("message buffer full"))
  {
    if messages != [] {
      var (s1, e) := SendStep(s, messages[0], false);
      SendAllFills(s1, messages[1..]);
      var room := QueueCapacity - |s.queue|;
      var n := if |messages| < room then |messages| else room;
      var r := SendAll(s, messages);
      var r1 := SendAll(s1, messages[1..]);
      assert r.1 == [e] + r1.1;
      if room > 0 {
        assert s1.queue == s.queue + [messages[0]];
        assert s.queue + [messages[0]] + messages[1..][..n - 1] == s.queue + messages[..n];
      } else {
        assert s1 == s;
        assert messages[..n] == [];
      }
    }
  }

  /** More than 100 sends to a stalled remote: the first 100 succeed, the rest are refused
      as full, and the queue holds the first 100 in order. */
  lemma CapacityOfHundred(s: ConnState, messages: seq<string>)
    requires s.status == Connected && !s.done && s.queue == []
    requires |messages| > QueueCapacity
    ensures SendAll(s, messages).0.queue == messages[..QueueCapacity]
    ensures forall i :: 0 <= i < QueueCapacity ==> SendAll(s, messages).1[i] == None
    ensures forall i :: QueueCapacity <= i < |messages| ==>
              SendAll(s, messages).1[i] == Some("message buffer full")
  {
    SendAllFills(s, messages);
  }

  // ---------------------------------------------------------------
  // Dialing: connect (manager.go:322-384) and the manage loop body
  // (manager.go:256-301)
  // ---------------------------------------------------------------

  /** What the websocket dial does: succeed, fail with an HTTP response
      carrying a status code, or fail without one. */
  datatype DialOutcome = DialOk | DialHttpError(code: int, detail: string) | DialNetError(detail: string)

  predicate Unauthorized(o: DialOutcome) {
    o.DialHttpError? && o.code == 401
  }

  predicate Transient(o: DialOutcome) {
    !o.DialOk? && !Unauthorized(o)
  }

  /** The detail `connect` reports for a failed dial. */
  function DialErrorText(o: DialOutcome): string
    requires Transient(o)
  {
    match o
    case DialHttpError(code, detail) => detail + " (HTTP Status: " + IntToString(code) + ")"
    case DialNetError(detail) => detail
  }

  /** One pass of the manage loop from `connect` to its next blocking
      point. Any prior socket is closed first. A success resets the
      counter, clears the error, counts a reconnection and starts both
      pumps. HTTP 401 makes `manage` return. Any other failure backs off
      linearly (the sleep, in seconds, is the second component) until
      five attempts are used up, after which `manage` waits for a manual
      retry. A closed `done` ends the loop after the dial. */
  function DialStep(s: ConnState, outcome: DialOutcome, now: nat): (r: (ConnState, Option<nat>))
    requires s.phase == Dialing
    ensures outcome.DialOk? ==>
              && r.0.status == Connected && r.0.error == "" && r.0.attempts == 0
              && r.0.conn == Open && r.1 == None
              && r.0.phase == (if s.done then Returned else WaitingConnected)
    ensures Unauthorized(outcome) ==>
              && r.0.status == Error && r.0.error == AuthFailedMessage
              && r.0.phase == Returned && r.0.attempts == s.attempts && r.1 == None
    ensures Transient(outcome) && !s.done && s.attempts < MaxReconnectAttempts ==>
              && r.0.attempts == s.attempts + 1 && r.0.status == Reconnecting
              && r.1 == Some(ReconnectDelay * r.0.attempts) && r.0.phase == Dialing
    ensures Transient(outcome) && !s.done && s.attempts >= MaxReconnectAttempts ==>
              && r.0.attempts == s.attempts && r.0.status == Error
              && r.0.error == MaxAttemptsMessage && r.0.phase == WaitingRetry && r.1 == None
    ensures Transient(outcome) && s.done ==>
              && r.0.phase == Returned && r.1 == None
              && r.0.status == Error && r.0.attempts == s.attempts
    ensures Transient(outcome) && (s.done || s.attempts < MaxReconnectAttempts) ==>
              r.0.error == "failed to connect to wrapper: " + DialErrorText(outcome)
    ensures outcome.DialOk? ==>
              && r.0.stats == s.stats.(connectedAt := Some(now), reconnections := s.stats.reconnections + 1)
              && r.0.readPumps == s.readPumps + 1 && r.0.writePumps == s.writePumps + 1
    ensures !outcome.DialOk? ==>
              && r.0.conn == NoConn && r.0.stats == s.stats
              && r.0.readPumps == s.readPumps && r.0.writePumps == s.writePumps
    ensures r.0.stats.reconnections == s.stats.reconnections + (if outcome.DialOk? then 1 else 0)
    ensures r.0.stats.messagesSent == s.stats.messagesSent
    ensures r.0.stats.messagesReceived == s.stats.messagesReceived
    ensures r.0.queue == s.queue && r.0.clients == s.clients && r.0.done == s.done
    ensures Inv(s) ==> Inv(r.0)
  {
    var s1 := s.(conn := NoConn);
    match outcome
    case DialOk =>
      var stats := s.stats.(connectedAt := Some(now), reconnections := s.stats.reconnections + 1);
      (s1.(conn := Open, status := Connected, stats := stats,
           readPumps := s.readPumps + 1, writePumps := s.writePumps + 1,
           attempts := 0, error := "",
           phase := if s.done then Returned else WaitingConnected), None)
    case _ =>
      if Unauthorized(outcome) then
        (s1.(status := Error, error := AuthFailedMessage, phase := Returned), None)
      else
        var failed := s1.(status := Error, error := "failed to connect to wrapper: " + DialErrorText(outcome));
        if s.done then (failed.(phase := Returned), None)
        else if s.attempts >= MaxReconnectAttempts then
          (failed.(error := MaxAttemptsMessage, phase := WaitingRetry), None)
        else
          (failed.(attempts := s.attempts + 1, status := Reconnecting),
           Some(ReconnectDelay * (s.attempts + 1)))
  }

  /** The state a successful dial leaves, as one record. DialSucceeded
      assigns the fields one by one; this equation lets its proof compare
      whole records instead of unfolding DialStep field by field. */
  lemma DialOkState(s: ConnState, now: nat)
    requires s.phase == Dialing && s.conn == NoConn
    ensures DialStep(s, DialOk, now).0 ==
              s.(conn := Open, status := Connected, error := "", attempts := 0,
                 stats := s.stats.(connectedAt := Some(now), reconnections := s.stats.reconnections + 1),
                 readPumps := s.readPumps + 1, writePumps := s.writePumps + 1,
                 phase := if s.done then Returned else WaitingConnected)
  {
  }

  /** The sleep a dial asks for, as a list of zero or one delay. */
  function SleepList(sleep: Option<nat>): seq<nat> {
    if sleep.Some? then [sleep.value] else []
  }

  /** The manage loop fed a sequence of dial outcomes, with nothing else
      happening in between: it dials while it is in the Dialing phase and
      outcomes remain. Returns the final state, the sleeps taken and the
      number of dials made. */
  function RunDials(s: ConnState, outcomes: seq<DialOutcome>, now: nat): (r: (ConnState, seq<nat>, nat))
    ensures r.2 <= |outcomes|
    decreases |outcomes|
  {
    if outcomes == [] || s.phase != Dialing then (s, [], 0)
    else
      var d := DialStep(s, outcomes[0], now);
      var r := RunDials(d.0, outcomes[1..], now);
      (r.0, SleepList(d.1) + r.1, r.2 + 1)
  }

  /** One dial of RunDials, unfolded. */
  lemma RunDialsUnfold(s: ConnState, outcomes: seq<DialOutcome>, now: nat)
    requires outcomes != [] && s.phase == Dialing
    ensures var d := DialStep(s, outcomes[0], now);
      var r := RunDials(d.0, outcomes[1..], now);
      RunDials(s, outcomes, now) == (r.0, SleepList(d.1) + r.1, r.2 + 1)
  {
  }

  /** The backoff schedule from attempt `k` to the last: 5k, 5(k+1), ..., 25 seconds. */
  function Schedule(k: nat): seq<nat>
    requires 1 <= k
    decreases MaxReconnectAttempts + 1 - k
  {
    if k > MaxReconnectAttempts then [] else [ReconnectDelay * k] + Schedule(k + 1)
  }

  function Sum(xs: seq<nat>): nat {
    if xs == [] then 0 else xs[0] + Sum(xs[1..])
  }

  predicate AllTransient(outcomes: seq<DialOutcome>) {
    forall i :: 0 <= i < |outcomes| ==> Transient(outcomes[i])
  }

  /** A run that gave up: from attempt count `a`, exactly 6 - a dials,
      sleeping 5(a+1), ..., 25 seconds, ending with the counter at its
      maximum, the error asking for a manual retry and `manage` waiting
      for it, with the reconnection counter still at `reconnections`. */
  ghost predicate GaveUp(r: (ConnState, seq<nat>, nat), a: nat, reconnections: nat) {
    && r.2 == MaxReconnectAttempts + 1 - a
    && r.1 == Schedule(a + 1)
    && r.0.phase == WaitingRetry && r.0.attempts == MaxReconnectAttempts
    && r.0.status == Error && r.0.error == MaxAttemptsMessage
    && r.0.stats.reconnections == reconnections
  }

  /** Repeated transient failures from attempt count `a` give up after
      6 - a dials on the linear schedule; no reconnection is counted. */
  lemma {:induction false} BackoffFrom(s: ConnState, outcomes: seq<DialOutcome>, now: nat)
    requires s.phase == Dialing && !s.done && s.attempts <= MaxReconnectAttempts
    requires AllTransient(outcomes) && |outcomes| >= MaxReconnectAttempts + 1 - s.attempts
    ensures GaveUp(RunDials(s, outcomes, now), s.attempts, s.stats.reconnections)
    decreases MaxReconnectAttempts - s.attempts
  {
    var d := DialStep(s, outcomes[0], now);
    assert Transient(outcomes[0]);
    if s.attempts < MaxReconnectAttempts {
      TransientTail(outcomes);
      TransientDial(s, outcomes[0], now);
      BackoffFrom(d.0, outcomes[1..], now);
      BackoffCons(s, outcomes, now);
    } else {
      BackoffLast(s, outcomes, now);
    }
  }

  /** What a transient failure below the limit leaves for the next dial. */
  lemma TransientDial(s: ConnState, o: DialOutcome, now: nat)
    requires s.phase == Dialing && !s.done && s.attempts < MaxReconnectAttempts && Transient(o)
    ensures var d := DialStep(s, o, now).0;
      && d.phase == Dialing && !d.done && d.attempts == s.attempts + 1
      && d.stats.reconnections == s.stats.reconnections
  {
  }

  /** The last dial of BackoffFrom: at the limit, one more transient
      failure gives up without sleeping. */
  lemma BackoffLast(s: ConnState, outcomes: seq<DialOutcome>, now: nat)
    requires s.phase == Dialing && !s.done && s.attempts == MaxReconnectAttempts
    requires outcomes != [] && Transient(outcomes[0])
    ensures GaveUp(RunDials(s, outcomes, now), s.attempts, s.stats.reconnections)
  {
    var d := DialStep(s, outcomes[0], now);
    RunDialsUnfold(s, outcomes, now);
    assert RunDials(d.0, outcomes[1..], now) == (d.0, [], 0);
    ScheduleStep(s.attempts + 1);
    assert SleepList(d.1) + [] == [];
  }

  /** The inductive step of BackoffFrom: one more transient failure in
      front of a run that gave up. */
  lemma BackoffCons(s: ConnState, outcomes: seq<DialOutcome>, now: nat)
    requires s.phase == Dialing && !s.done && s.attempts < MaxReconnectAttempts
    requires outcomes != [] && Transient(outcomes[0])
    requires var d := DialStep(s, outcomes[0], now).0;
      GaveUp(RunDials(d, outcomes[1..], now), d.attempts, d.stats.reconnections)
    ensures GaveUp(RunDials(s, outcomes, now), s.attempts, s.stats.reconnections)
  {
    var d := DialStep(s, outcomes[0], now);
    TransientDial(s, outcomes[0], now);
    RunDialsUnfold(s, outcomes, now);
    assert SleepList(d.1) == [ReconnectDelay * (s.attempts + 1)];
    GaveUpCons(RunDials(s, outcomes, now), RunDials(d.0, outcomes[1..], now),
               s.attempts, s.stats.reconnections);
  }

  /** GaveUp is kept when one sleep on the schedule is put in front. */
  lemma GaveUpCons(r: (ConnState, seq<nat>, nat), rest: (ConnState, seq<nat>, nat), a: nat, reconnections: nat)
    requires a < MaxReconnectAttempts
    requires r == (rest.0, [ReconnectDelay * (a + 1)] + rest.1, rest.2 + 1)
    requires GaveUp(rest, a + 1, reconnections)
    ensures GaveUp(r, a, reconnections)
  {
    ScheduleStep(a + 1);
  }

  lemma TransientTail(outcomes: seq<DialOutcome>)
    requires outcomes != [] && AllTransient(outcomes)
    ensures AllTransient(outcomes[1..])
  {
    forall i | 0 <= i < |outcomes[1..]| ensures Transient(outcomes[1..][i]) {
      assert outcomes[1..][i] == outcomes[i + 1];
    }
  }

  lemma ScheduleStep(k: nat)
    requires 1 <= k
    ensures k <= MaxReconnectAttempts ==> Schedule(k) == [ReconnectDelay * k] + Schedule(k + 1)
    ensures k > MaxReconnectAttempts ==> Schedule(k) == []
  {
  }

  /** The default schedule: 5, 10, 15, 20 and 25 seconds, 75 in all. */
  lemma ScheduleFromOne()
    ensures Schedule(1) == [5, 10, 15, 20, 25] && Sum(Schedule(1)) == 75
  {
    assert Schedule(6) == [];
    assert Schedule(1) == [5, 10, 15, 20, 25];
    assert Sum([25]) == 25;
    assert Sum([20, 25]) == 45;
    assert Sum([15, 20, 25]) == 60;
    assert Sum([10, 15, 20, 25]) == 70;
  }

  /** From a fresh counter: six dials, sleeps of 5, 10, 15, 20 and 25
      seconds (75 in all), never more than five attempts counted. */
  lemma BackoffFromFresh(s: ConnState, outcomes: seq<DialOutcome>, now: nat)
    requires s.phase == Dialing && !s.done && s.attempts == 0
    requires AllTransient(outcomes) && |outcomes| >= 6
    ensures var r := RunDials(s, outcomes, now);
      && r.2 == 6
      && r.1 == [5, 10, 15, 20, 25] && Sum(r.1) == 75
      && r.0.phase == WaitingRetry && r.0.attempts == 5
      && r.0.error == MaxAttemptsMessage
  {
    BackoffFrom(s, outcomes, now);
    ScheduleFromOne();
  }

  /** After a dial refused with HTTP 401, `manage` has returned and the
      connection can never be revived: every later manual retry is
      refused as "retry already in progress" and changes nothing. */
  lemma AuthFailureIsFinal(s: ConnState, now: nat, detail: string)
    requires s.phase == Dialing && !s.done
    ensures var a := DialStep(s, DialHttpError(401, detail), now).0;
      && a.phase == Returned && a.attempts == s.attempts
      && RetryStep(a) == (a, Some("retry already in progress"))
  {
  }

  // ---------------------------------------------------------------
  // Read pump (manager.go:387-463)
  // ---------------------------------------------------------------

  /** Why a read pump stops: there was no socket when it started, the
      read deadline could not be set, or a read failed. */
  datatype ReadExit = ReadNilConn | ReadDeadlineFailed | ReadFailed(detail: string)

  /** A read pump receives one payload: the received counter goes up by
      one, the message time is stamped, and the payload is written to
      every subscriber; those whose write fails are dropped. */
  function ReceiveStep(s: ConnState, now: nat, failed: set<ClientId>): (r: ConnState)
    requires s.readPumps > 0
    ensures r.stats.messagesReceived == s.stats.messagesReceived + 1
    ensures r.stats.lastMessageAt == Some(now)
    ensures r.clients == s.clients - failed
    ensures r.stats.messagesSent == s.stats.messagesSent
    ensures r.stats.reconnections == s.stats.reconnections
    ensures r.(stats := s.stats, clients := s.clients) == s
    ensures Inv(s) ==> Inv(r)
  {
    s.(stats := s.stats.(messagesReceived := s.stats.messagesReceived + 1, lastMessageAt := Some(now)),
       clients := s.clients - failed)
  }

  /** A read pump exits: a read error marks the status `error` with the
      failure, but the deferred cleanup then overwrites the status with
      `disconnected`, closes the socket and signals `manage`. */
  function ReadPumpExitStep(s: ConnState, cause: ReadExit): (r: ConnState)
    requires s.readPumps > 0
    ensures Waiting(s.phase) ==> r.phase == Dialing
    ensures !Waiting(s.phase) ==> r.phase == s.phase
    ensures s.phase == WaitingRetry ==> r.attempts == 0
    ensures s.phase != WaitingRetry ==> r.attempts == s.attempts
    ensures r.conn == CloseConn(s.conn)
    ensures r.readPumps == s.readPumps - 1 && r.writePumps == s.writePumps
    ensures r.stats == s.stats && r.queue == s.queue && r.clients == s.clients && r.done == s.done
    ensures r.status == Disconnected
    ensures cause.ReadFailed? ==> r.error == "read error: " + cause.detail
    ensures cause.ReadNilConn? ==> r.error == "connection is nil"
    ensures cause.ReadDeadlineFailed? ==> r.error == s.error
    ensures Inv(s) ==> Inv(r)
  {
    var s1 := match cause
      case ReadNilConn => s.(error := "connection is nil")
      case ReadDeadlineFailed => s
      case ReadFailed(detail) => s.(status := Error, error := "read error: " + detail);
    Signal(s1.(status := Disconnected, conn := CloseConn(s.conn), readPumps := s.readPumps - 1))
  }

  // ---------------------------------------------------------------
  // Write pump (manager.go:466-548)
  // ---------------------------------------------------------------

  /** A write pump writes the oldest queued message: it leaves the queue,
      and only after the successful write the sent counter goes up. */
  function DeliverStep(s: ConnState, now: nat): (r: (ConnState, string))
    requires s.writePumps > 0 && s.queue != []
    ensures r.1 == s.queue[0] && r.0.queue == s.queue[1..]
    ensures r.0 == s.(queue := s.queue[1..], stats := r.0.stats)
    ensures r.0.stats.messagesSent == s.stats.messagesSent + 1
    ensures r.0.stats.lastMessageAt == Some(now)
    ensures r.0.stats.messagesReceived == s.stats.messagesReceived
    ensures r.0.stats.reconnections == s.stats.reconnections
    ensures r.0.stats.connectedAt == s.stats.connectedAt
    ensures Inv(s) ==> Inv(r.0)
  {
    (s.(queue := s.queue[1..],
        stats := s.stats.(messagesSent := s.stats.messagesSent + 1, lastMessageAt := Some(now))),
     s.queue[0])
  }

  /** Why a write pump stops. Stopped: `done` was closed or the keep-alive
      ping could not be written. SendAborted: it took the oldest message
      but found no socket or could not set the write deadline.
      SendFailed: writing the oldest message failed. */
  datatype WriteExit = Stopped | SendAborted | SendFailed(detail: string)

  /** What a write pump's exit does to the message it was sending: a
      message whose send was aborted or failed leaves the queue uncounted. */
  function Unqueue(s: ConnState, cause: WriteExit): ConnState
    requires !cause.Stopped? ==> s.queue != []
  {
    match cause
    case Stopped => s
    case SendAborted => s.(queue := s.queue[1..])
    case SendFailed(detail) => s.(queue := s.queue[1..], error := "write error: " + detail)
  }

  /** A write pump exits. A failed message is dropped without counting it
      as sent. The deferred cleanup first writes a close frame; if that
      write fails it returns at once (manager.go:473-477) and neither the
      status changes nor `manage` is signalled. Otherwise the socket is
      closed, the status becomes `disconnected` and `manage` is signalled. */
  function WritePumpExitStep(s: ConnState, cause: WriteExit, closeFrameOk: bool): (r: ConnState)
    requires s.writePumps > 0
    requires !cause.Stopped? ==> s.queue != []
    ensures r.writePumps == s.writePumps - 1
    ensures r.queue == if cause.Stopped? then s.queue else s.queue[1..]
    ensures r.stats == s.stats && r.clients == s.clients && r.done == s.done
    ensures cause.SendFailed? ==> r.error == "write error: " + cause.detail
    ensures !cause.SendFailed? ==> r.error == s.error
    ensures r.readPumps == s.readPumps
    ensures s.conn != NoConn && !closeFrameOk ==>
              && r.status == s.status && r.phase == s.phase
              && r.conn == s.conn && r.attempts == s.attempts
    ensures s.conn == NoConn || closeFrameOk ==>
              && r.status == Disconnected && r.conn == CloseConn(s.conn)
              && (Waiting(s.phase) ==> r.phase == Dialing)
              && (!Waiting(s.phase) ==> r.phase == s.phase)
              && (s.phase == WaitingRetry ==> r.attempts == 0)
              && (s.phase != WaitingRetry ==> r.attempts == s.attempts)
    ensures Inv(s) ==> Inv(r)
  {
    var s2 := Unqueue(s, cause).(writePumps := s.writePumps - 1);
    if s.conn != NoConn && !closeFrameOk then s2
    else Signal(s2.(status := Disconnected, conn := CloseConn(s.conn)))
  }

  // ---------------------------------------------------------------
  // Teardown, as DisconnectAll does it for one connection
  // (manager.go:238-246)
  // ---------------------------------------------------------------

  /** Close the socket if there is one and close `done`; a blocked
      `manage` wakes up and returns. Status, error and the rest stay. */
  function CloseStep(s: ConnState): (r: ConnState)
    requires !s.done
    ensures r.done && r.conn == CloseConn(s.conn) && r.conn != Open
    ensures r.readPumps == s.readPumps && r.writePumps == s.writePumps
    ensures Waiting(s.phase) ==> r.phase == Returned
    ensures !Waiting(s.phase) ==> r.phase == s.phase
    ensures r.status == s.status && r.error == s.error && r.stats == s.stats
    ensures r.queue == s.queue && r.clients == s.clients && r.attempts == s.attempts
    ensures Inv(s) ==> Inv(r)
  {
    s.(conn := CloseConn(s.conn), done := true,
       phase := if Waiting(s.phase) then Returned else s.phase)
  }

  /** Once `manage` has returned no step brings it back. */
  lemma ReturnedIsFinal(s: ConnState, message: string, closedWins: bool, now: nat,
                        failed: set<ClientId>, rc: ReadExit, wc: WriteExit, closeFrameOk: bool)
    requires s.phase == Returned
    ensures RetryStep(s).0.phase == Returned
    ensures SendStep(s, message, closedWins).0.phase == Returned
    ensures s.readPumps > 0 ==> ReceiveStep(s, now, failed).phase == Returned
    ensures s.readPumps > 0 ==> ReadPumpExitStep(s, rc).phase == Returned
    ensures s.writePumps > 0 && s.queue != [] ==> DeliverStep(s, now).0.phase == Returned
    ensures s.writePumps > 0 && (!wc.Stopped? ==> s.queue != []) ==>
              WritePumpExitStep(s, wc, closeFrameOk).phase == Returned
    ensures !s.done ==> CloseStep(s).phase == Returned
  {
  }

  /** The message and reconnection counters never go down, whichever
      step runs. */
  lemma CountersNeverDecrease(s: ConnState, message: string, closedWins: bool, outcome: DialOutcome,
                              now: nat, failed: set<ClientId>, rc: ReadExit, wc: WriteExit,
                              closeFrameOk: bool)
    ensures StatsGrow(s.stats, RetryStep(s).0.stats)
    ensures StatsGrow(s.stats, SendStep(s, message, closedWins).0.stats)
    ensures s.phase == Dialing ==> StatsGrow(s.stats, DialStep(s, outcome, now).0.stats)
    ensures s.readPumps > 0 ==> StatsGrow(s.stats, ReceiveStep(s, now, failed).stats)
    ensures s.readPumps > 0 ==> StatsGrow(s.stats, ReadPumpExitStep(s, rc).stats)
    ensures s.writePumps > 0 && s.queue != [] ==> StatsGrow(s.stats, DeliverStep(s, now).0.stats)
    ensures s.writePumps > 0 && (!wc.Stopped? ==> s.queue != []) ==>
              StatsGrow(s.stats, WritePumpExitStep(s, wc, closeFrameOk).stats)
    ensures !s.done ==> StatsGrow(s.stats, CloseStep(s).stats)
  {
  }

  // ---------------------------------------------------------------
  // Status probe address (GetServerStatus, manager.go:187-230)
  // ---------------------------------------------------------------

  const DefaultGamePort := "19132"

  /** The host part of the relay address: without a leading "ws://" and a
      trailing "/ws", cut at the last ':', with "localhost" replaced by
      the loopback address. */
  function ProbeHost(address: string): (host: string)
  {
    var a := TrimSuffix(TrimPrefix(address, "ws://"), "/ws");
    var h := match LastIndex(a, ':')
      case Some(i) => a[..i]
      case None => a;
    if h == "localhost" then "127.0.0.1" else h
  }

  /** The address the status probe is sent to: the host joined with the
      game port, which is 19132 unless `portOverride` (the environment
      variable CFG_SERVER_PORT) is non-empty. An empty relay address is
      an error. */
  function ProbeAddress(address: string, portOverride: string): (r: Result<string>)
    ensures address == "" <==> r == Err("wrapper address is empty")
    ensures r.Ok? ==> r.value == ProbeHost(address) + ":" +
                        (if portOverride != "" then portOverride else DefaultGamePort)
  {
    if address == "" then Err("wrapper address is empty")
    else Ok(ProbeHost(address) + ":" + (if portOverride != "" then portOverride else DefaultGamePort))
  }

  /** The usual relay URL "ws://<host>:<port>/ws" probes <host> on the
      game port, with localhost mapped to 127.0.0.1. */
  lemma ProbeOfRelayUrl(host: string, port: string, portOverride: string)
    requires ':' !in port && ':' !in host
    ensures var address := "ws://" + host + ":" + port + "/ws";
      ProbeAddress(address, portOverride) ==
        Ok((if host == "localhost" then "127.0.0.1" else host) + ":" +
           (if portOverride != "" then portOverride else DefaultGamePort))
  {
    var address := "ws://" + host + ":" + port + "/ws";
    var a1 := host + ":" + port + "/ws";
    assert address == "ws://" + a1;
    assert StartsWith(address, "ws://") by {
      assert address[..5] == "ws://";
    }
    assert TrimPrefix(address, "ws://") == a1;
    var a2 := host + ":" + port;
    assert a1 == a2 + "/ws";
    assert EndsWith(a1, "/ws") by {
      assert a1[|a1| - 3..] == "/ws";
    }
    assert TrimSuffix(a1, "/ws") == a2;
    CutAtLastColon(host, port);
  }

  /** Cutting "<h>:<port>" at its last ':' gives back `h` when the port
      has no ':' of its own. */
  lemma CutAtLastColon(h: string, port: string)
    requires ':' !in port
    ensures LastIndex(h + ":" + port, ':') == Some(|h|)
    ensures (h + ":" + port)[..|h|] == h
  {
    var hc := h + ":";
    var a := hc + port;
    assert |hc| == |h| + 1 && hc[|h|] == ':';
    assert a[..|h|] == h;
    assert a[|h|] == ':';
    forall j | |hc| <= j < |a|
      ensures a[j] != ':'
    {
      assert a[j] == port[j - |hc|];
    }
    var r := LastIndex(a, ':');
    assert r.Some?;
    assert !(r.value < |h|);
  }

  /** A relay address without a port: the whole host is probed. */
  lemma ProbeWithoutPort(host: string, portOverride: string)
    requires ':' !in host
    ensures ProbeAddress("ws://" + host + "/ws", portOverride) ==
              Ok((if host == "localhost" then "127.0.0.1" else host) + ":" +
                 (if portOverride != "" then portOverride else DefaultGamePort))
  {
    var address := "ws://" + host + "/ws";
    var a1 := host + "/ws";
    assert address == "ws://" + a1;
    assert StartsWith(address, "ws://") by {
      assert address[..5] == "ws://";
    }
    assert TrimPrefix(address, "ws://") == a1;
    assert EndsWith(a1, "/ws") by {
      assert a1[|a1| - 3..] == "/ws";
    }
    assert TrimSuffix(a1, "/ws") == host;
  }

  /** Only "ws://" is stripped: for a "wss://" relay URL the probed host
      keeps the scheme, and "localhost" is then not recognised. */
  lemma ProbeOfSecureUrl(host: string, port: string, portOverride: string)
    requires ':' !in port && ':' !in host
    ensures ProbeAddress("wss://" + host + ":" + port + "/ws", portOverride) ==
              Ok("wss://" + host + ":" + (if portOverride != "" then portOverride else DefaultGamePort))
  {
    var address := "wss://" + host + ":" + port + "/ws";
    assert !StartsWith(address, "ws://") by {
      assert address[2] == 's';
    }
    var a2 := "wss://" + host + ":" + port;
    assert address == a2 + "/ws";
    assert EndsWith(address, "/ws") by {
      assert address[|address| - 3..] == "/ws";
    }
    assert TrimSuffix(address, "/ws") == a2;
    var h := "wss://" + host;
    assert a2 == h + ":" + port;
    CutAtLastColon(h, port);
    assert h != "localhost" by {
      assert h[0] == 'w';
    }
  }

  /** The fields of the status answer. */
  datatype ServerStatus = ServerStatus(
    serverName: seq<Raknet.byte>,
    versionName: seq<Raknet.byte>,
    levelName: seq<Raknet.byte>,
    gameMode: seq<Raknet.byte>,
    playerCount: int,
    maxPlayerCount: int)

  /** GetServerStatus: probe the derived address and reshape the pong;
      `ping` is the outcome of the network ping sent to that address. A
      failed ping gives an error naming the address twice, once from
      this function and once from GetPong. */
  function GetServerStatus(address: string, portOverride: string, ping: Raknet.PingOutcome): (r: Result<ServerStatus>)
    requires ping.PingReply? ==> |Raknet.Split(ping.data, Raknet.Semicolon)| >= 12
    ensures address == "" ==> r == Err("wrapper address is empty")
    ensures address != "" && ping.PingFailed? ==>
              var a := ProbeAddress(address, portOverride).value;
              r == Err("error getting server status from " + a + ": " + ("error pinging " + a + ": " + ping.detail))
    ensures address != "" && ping.PingReply? ==>
              var p := Raknet.ParsePong(ping.data);
              r == Ok(ServerStatus(p.serverName, p.versionName, p.levelName, p.gameMode,
                                   p.playerCount, p.maxPlayerCount))
  {
    if address == "" then Err("wrapper address is empty")
    else
      var a := ProbeAddress(address, portOverride).value;
      match ping
      case PingFailed(detail) =>
        Err("error getting server status from " + a + ": " + Raknet.GetPong(a, ping).1.value)
      case PingReply(data) =>
        var pong := Raknet.GetPong(a, ping).0;
        Ok(ServerStatus(pong.serverName, pong.versionName, pong.levelName, pong.gameMode,
                        pong.playerCount, pong.maxPlayerCount))
  }


  /** A run's result after `n` dials that already slept `acc`. */
  function Glue(acc: seq<nat>, n: nat, r: (ConnState, seq<nat>, nat)): (ConnState, seq<nat>, nat) {
    (r.0, acc + r.1, n + r.2)
  }

  lemma GlueNothing(r: (ConnState, seq<nat>, nat))
    ensures Glue([], 0, r) == r
  {
    assert [] + r.1 == r.1;
  }

  lemma GlueShift(acc: seq<nat>, n: nat, sleep: seq<nat>, r: (ConnState, seq<nat>, nat))
    ensures Glue(acc, n, (r.0, sleep + r.1, r.2 + 1)) == Glue(acc + sleep, n + 1, r)
  {
    assert acc + (sleep + r.1) == (acc + sleep) + r.1;
  }

  /** One pass of the loop moves a dial from the run into the prefix. */
  lemma GlueDial(s: ConnState, outcomes: seq<DialOutcome>, now: nat, acc: seq<nat>, n: nat)
    requires outcomes != [] && s.phase == Dialing
    ensures var d := DialStep(s, outcomes[0], now);
      Glue(acc, n, RunDials(s, outcomes, now)) ==
      Glue(acc + SleepList(d.1), n + 1, RunDials(d.0, outcomes[1..], now))
  {
    var d := DialStep(s, outcomes[0], now);
    var r := RunDials(d.0, outcomes[1..], now);
    RunDialsUnfold(s, outcomes, now);
    GlueShift(acc, n, SleepList(d.1), r);
  }

  // ---------------------------------------------------------------
  // The connection object
  // ---------------------------------------------------------------

  /** WrapperConnection: the configured identity, and the mutable state
      the goroutines and callers update in place. Each method is one of
      the steps above, performed on the fields. */
  class WrapperConnection {
    const id: string
    const name: string
    const address: string
    const username: string
    const password: string
    const sharedKey: string

    var status: Status
    var error: string
    var stats: Stats
    var queue: seq<string>
    var clients: set<ClientId>
    var done: bool
    var phase: Phase
    var attempts: nat
    var conn: Transport
    var readPumps: nat
    var writePumps: nat

    function State(): ConnState
      reads this
    {
      ConnState(status, error, stats, queue, clients, done, phase, attempts, conn, readPumps, writePumps)
    }

    ghost predicate Valid()
      reads this
    {
      Inv(State())
    }

    /** The `managerWaiting` flag: `manage` is blocked receiving the
        reconnect signal, so a non-blocking send would be taken. */
    predicate ManagerWaiting()
      reads this
    {
      Waiting(phase)
    }

    constructor (id: string, name: string, address: string,
                 username: string, password: string, sharedKey: string)
      ensures this.id == id && this.name == name && this.address == address
      ensures this.username == username && this.password == password && this.sharedKey == sharedKey
      ensures State() == Initial() && Valid()
    {
      this.id, this.name, this.address := id, name, address;
      this.username, this.password, this.sharedKey := username, password, sharedKey;
      status, error, stats := Connecting, "", ZeroStats;
      queue, clients, done := [], {}, false;
      phase, attempts, conn := Dialing, 0, NoConn;
      readPumps, writePumps := 0, 0;
    }

    /** Non-blocking send on the reconnect signal. */
    method SignalManager()
      modifies this
      ensures State() == Signal(old(State()))
    {
      if phase == WaitingRetry {
        attempts := 0;
        phase := Dialing;
      } else if phase == WaitingConnected {
        if conn != NoConn {
          conn := Closed;
        }
        phase := Dialing;
      }
    }

    method Retry() returns (err: Option<string>)
      modifies this
      ensures (State(), err) == RetryStep(old(State()))
    {
      if status == Connected || status == Connecting {
        return Some("connection is already " + StatusName(status));
      }
      if ManagerWaiting() {
        status := Connecting;
        SignalManager();
        return None;
      }
      if done {
        return Some("connection is closed");
      }
      return Some("retry already in progress");
    }

    method AddClient(client: ClientId)
      modifies this
      ensures State() == old(State()).(clients := old(clients) + {client})
    {
      clients := clients + {client};
    }

    method RemoveClient(client: ClientId)
      modifies this
      ensures State() == old(State()).(clients := old(clients) - {client})
    {
      clients := clients - {client};
    }

    method SendMessage(message: string, closedWins: bool) returns (err: Option<string>)
      modifies this
      ensures (State(), err) == SendStep(old(State()), message, closedWins)
    {
      if status != Connected {
        return Some("wrapper is not connected (status: " + StatusName(status) + ")");
      }
      if |queue| < QueueCapacity && !(done && closedWins) {
        queue := queue + [message];
        return None;
      }
      if done {
        return Some("connection is closed");
      }
      return Some("message buffer full");
    }

    /** One dial by `manage`; the result is the backoff sleep, if any. */
    method Dial(outcome: DialOutcome, now: nat) returns (sleep: Option<nat>)
      requires phase == Dialing
      modifies this
      ensures (State(), sleep) == DialStep(old(State()), outcome, now)
    {
      conn := NoConn;
      if outcome.DialOk? {
        DialSucceeded(now);
        sleep := None;
      } else {
        sleep := DialFailed(outcome);
      }
    }

    /** `connect` succeeded: a fresh socket and a pair of pumps. */
    method DialSucceeded(now: nat)
      requires phase == Dialing && conn == NoConn
      modifies this
      ensures State() == DialStep(old(State()), DialOk, now).0
    {
      DialOkState(State(), now);
      conn, status, error, attempts := Open, Connected, "", 0;
      stats := stats.(connectedAt := Some(now), reconnections := stats.reconnections + 1);
      readPumps, writePumps := readPumps + 1, writePumps + 1;
      phase := if done then Returned else WaitingConnected;
    }

    /** `connect` failed: give up on a 401, otherwise back off or wait. */
    method DialFailed(outcome: DialOutcome) returns (sleep: Option<nat>)
      requires phase == Dialing && conn == NoConn && !outcome.DialOk?
      modifies this
      ensures (State(), sleep) == DialStep(old(State()), outcome, 0)
    {
      sleep := None;
      status := Error;
      if Unauthorized(outcome) {
        error := AuthFailedMessage;
        phase := Returned;
      } else {
        error := "failed to connect to wrapper: " + DialErrorText(outcome);
        if done {
          phase := Returned;
        } else if attempts >= MaxReconnectAttempts {
          error := MaxAttemptsMessage;
          phase := WaitingRetry;
        } else {
          attempts := attempts + 1;
          status := Reconnecting;
          sleep := Some(ReconnectDelay * attempts);
        }
      }
    }

    /** The manage loop, fed one dial outcome per pass; it stops when the
        outcomes run out or `manage` blocks or returns. */
    method Manage(outcomes: seq<DialOutcome>, now: nat) returns (sleeps: seq<nat>, dials: nat)
      modifies this
      ensures (State(), sleeps, dials) == RunDials(old(State()), outcomes, now)
    {
      sleeps, dials := [], 0;
      assert outcomes[dials..] == outcomes;
      GlueNothing(RunDials(State(), outcomes, now));
      while dials < |outcomes| && phase == Dialing
        invariant dials <= |outcomes|
        invariant RunDials(old(State()), outcomes, now) ==
                  Glue(sleeps, dials, RunDials(State(), outcomes[dials..], now))
        decreases |outcomes| - dials
      {
        ghost var before := State();
        GlueDial(before, outcomes[dials..], now, sleeps, dials);
        assert outcomes[dials..][0] == outcomes[dials];
        assert outcomes[dials..][1..] == outcomes[dials + 1..];
        var sleep := Dial(outcomes[dials], now);
        assert (State(), sleep) == DialStep(before, outcomes[dials], now);
        sleeps := sleeps + SleepList(sleep);
        dials := dials + 1;
      }
      assert sleeps + [] == sleeps;
    }

    /** The read pump's handling of one payload: count it, stamp it and
        write it to every subscriber; the subscribers whose write fails
        (`failed`) are removed, after the broadcast. */
    method Receive(message: string, now: nat, failed: set<ClientId>) returns (delivered: set<ClientId>)
      requires readPumps > 0
      modifies this
      ensures State() == ReceiveStep(old(State()), now, failed)
      ensures delivered == old(clients) - failed
    {
      stats := stats.(messagesReceived := stats.messagesReceived + 1, lastMessageAt := Some(now));
      var counted := State();
      var pending := clients;
      var kept := clients;
      delivered := {};
      while |pending| > 0
        invariant State() == counted
        invariant pending <= old(clients)
        invariant delivered == (old(clients) - pending) - failed
        invariant kept == old(clients) - ((old(clients) - pending) * failed)
        decreases pending
      {
        var client := Pick(pending);
        if client in failed {
          kept := kept - {client};
        } else {
          delivered := delivered + {client};
        }
        pending := pending - {client};
      }
      assert pending == {};
      assert kept == old(clients) - failed;
      assert ReceiveStep(old(State()), now, failed) == counted.(clients := kept);
      clients := kept;
    }

    method ReadPumpExit(cause: ReadExit)
      requires readPumps > 0
      modifies this
      ensures State() == ReadPumpExitStep(old(State()), cause)
    {
      match cause {
        case ReadNilConn => error := "connection is nil";
        case ReadDeadlineFailed =>
        case ReadFailed(detail) =>
          status := Error;
          error := "read error: " + detail;
      }
      status := Disconnected;
      if conn != NoConn {
        conn := Closed;
      }
      readPumps := readPumps - 1;
      SignalManager();
    }

    /** The write pump writes the oldest queued message successfully. */
    method WriteNext(now: nat) returns (message: string)
      requires writePumps > 0 && queue != []
      modifies this
      ensures (State(), message) == DeliverStep(old(State()), now)
    {
      message := queue[0];
      queue := queue[1..];
      stats := stats.(messagesSent := stats.messagesSent + 1, lastMessageAt := Some(now));
    }

    method WritePumpExit(cause: WriteExit, closeFrameOk: bool)
      requires writePumps > 0
      requires !cause.Stopped? ==> queue != []
      modifies this
      ensures State() == WritePumpExitStep(old(State()), cause, closeFrameOk)
    {
      DropUnsent(cause);
      writePumps := writePumps - 1;
      if conn != NoConn && !closeFrameOk {
        return;
      }
      status := Disconnected;
      if conn != NoConn {
        conn := Closed;
      }
      SignalManager();
    }

    /** The first half of a write pump's exit: the message it was
        sending, if any, leaves the queue. */
    method DropUnsent(cause: WriteExit)
      requires !cause.Stopped? ==> queue != []
      modifies this`queue, this`error
      ensures State() == Unqueue(old(State()), cause)
    {
      match cause {
        case Stopped =>
        case SendAborted => queue := queue[1..];
        case SendFailed(detail) =>
          queue := queue[1..];
          error := "write error: " + detail;
      }
    }

    /** DisconnectAll's work on one connection. */
    method Close()
      requires !done
      modifies this
      ensures State() == CloseStep(old(State()))
    {
      if conn != NoConn {
        conn := Closed;
      }
      done := true;
      if ManagerWaiting() {
        phase := Returned;
      }
    }
  }
}
