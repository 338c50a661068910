/**
 * The session bookkeeping of the SSH component
 * (kompics-daemon-launcher/src/main/java/se/sics/kompics/wan/master/ssh/SshComponent.java):
 * a session counter and three tables keyed by session id, which `addSession`,
 * `removeSession` and the three request handlers read and write. The handlers answer on
 * the component's SSH port; the answers are recorded, in order, in a response log.
 *
 * Connecting, running a command and closing a session are calls into the SSH library;
 * their outcomes are parameters here.
 */
module SshSessions {
  import opened Wrappers
  import opened JavaText
  import opened SshText

  /** A remote shell session; `exitStatus` is what `getExitStatus()` reports (null while it runs). */
  datatype Session = Session(ref: nat, exitStatus: Option<int>)

  /** An SSH connection, identified by its object reference. */
  datatype SshConn = SshConn(ref: nat)

  /** An object passed to `HashMap.get` or `HashMap.remove`: an Integer, or a Session. */
  datatype JavaKey = IntegerKey(n: int) | SessionKey(session: Session)

  /** `HashMap<Integer, V>.get(key)`: only an Integer equals an Integer key. */
  function Lookup<V>(m: map<int, V>, key: JavaKey): (r: Option<V>)
    ensures key.SessionKey? ==> r.None?
    ensures key.IntegerKey? ==> (r.Some? <==> key.n in m)
    ensures key.IntegerKey? && key.n in m ==> r == Some(m[key.n])
  {
    if key.IntegerKey? && key.n in m then Some(m[key.n]) else None
  }

  /** `HashMap<Integer, V>.remove(key)`: the new map and the value removed, if any. */
  function RemoveKey<V>(m: map<int, V>, key: JavaKey): (r: (map<int, V>, Option<V>))
    ensures r.1 == Lookup(m, key)
    ensures key.SessionKey? ==> r.0 == m
    ensures key.IntegerKey? ==> r.0 == m - {key.n}
  {
    match key
    case IntegerKey(n) => (m - {n}, Lookup(m, key))
    case SessionKey(_) => (m, None)
  }

  /** The counter and the three tables. A session stored as null is `None`. */
  datatype Tables = Tables(
    sessionCounter: int,
    activeSshConnections: map<int, SshConn>,
    sessionObjMap: map<int, Option<Session>>,
    sessionCommandsMap: map<int, seq<CommandSpec>>)

  function InitialTables(): Tables {
    Tables(0, map[], map[], map[])
  }

  /** `sessionObjMap.get(sessionId)`: null when there is no entry and when the entry is null. */
  function SessionOf(t: Tables, sessionId: int): (r: Option<Session>)
    ensures r.Some? ==> sessionId in t.sessionObjMap && t.sessionObjMap[sessionId] == r
    ensures r == (if sessionId in t.sessionObjMap then t.sessionObjMap[sessionId] else None)
  {
    match Lookup(t.sessionObjMap, IntegerKey(sessionId))
    case Some(s) => s
    case None => None
  }

  /** Every stored key is below the counter; no connection is ever stored. */
  predicate Consistent(t: Tables) {
    && 0 <= t.sessionCounter
    && t.activeSshConnections == map[]
    && (forall k :: k in t.sessionObjMap ==> 0 <= k < t.sessionCounter)
    && (forall k :: k in t.sessionCommandsMap ==> 0 <= k < t.sessionCounter)
  }

  /**
   * `addSession`: the session is stored, and the command appended, under the counter's old
   * value; the counter goes up by one, and its new value is returned.
   */
  function SessionAdded(t: Tables, session: Option<Session>, command: CommandSpec): (r: (Tables, int))
    ensures r.0.sessionObjMap == t.sessionObjMap[t.sessionCounter := session]
    ensures r.0.sessionCommandsMap == t.sessionCommandsMap[t.sessionCounter :=
              (if t.sessionCounter in t.sessionCommandsMap then t.sessionCommandsMap[t.sessionCounter] else []) + [command]]
    ensures r.0.sessionCounter == t.sessionCounter + 1 && r.1 == r.0.sessionCounter
    ensures r.0.activeSshConnections == t.activeSshConnections
  {
    var previous := match Lookup(t.sessionCommandsMap, IntegerKey(t.sessionCounter))
      case Some(commands) => commands
      case None => [];
    var t' := t.(sessionCommandsMap := t.sessionCommandsMap[t.sessionCounter := previous + [command]],
                 sessionObjMap := t.sessionObjMap[t.sessionCounter := session],
                 sessionCounter := t.sessionCounter + 1);
    (t', t'.sessionCounter)
  }

  /**
   * The id `addSession` returns is not the key it stored under: nothing is stored under it,
   * and the session just added is found under the id one below.
   */
  lemma AddedIdIsNotStored(t: Tables, session: Option<Session>, command: CommandSpec)
    requires Consistent(t)
    ensures var (t', id) := SessionAdded(t, session, command);
      && Consistent(t')
      && id !in t'.sessionObjMap && id !in t'.sessionCommandsMap
      && t'.sessionObjMap[id - 1] == session
  {
  }

  /** What `removeSession` leaves, returns, and closes. */
  datatype Removal = Removal(tables: Tables, status: bool, closed: Option<Session>)

  /**
   * `removeSession`: without a (non-null) session for the id, nothing changes and the result
   * is false; otherwise the session is closed and removed from the connection and command
   * tables by the Session itself as key, which matches no Integer key, and from the session
   * table by its id.
   */
  function SessionRemoved(t: Tables, sessionId: int): (r: Removal)
    ensures SessionOf(t, sessionId).None? ==> r == Removal(t, false, None)
    ensures SessionOf(t, sessionId).Some? ==>
      && r.closed == SessionOf(t, sessionId)
      && r.tables.sessionObjMap == t.sessionObjMap - {sessionId}
    ensures r.tables.sessionCommandsMap == t.sessionCommandsMap
    ensures r.tables.activeSshConnections == t.activeSshConnections
    ensures r.tables.sessionCounter == t.sessionCounter
    ensures !r.status
  {
    match SessionOf(t, sessionId)
    case None => Removal(t, false, None)
    case Some(session) =>
      var (connections, removed) := RemoveKey(t.activeSshConnections, SessionKey(session));
      var (commands, _) := RemoveKey(t.sessionCommandsMap, SessionKey(session));
      var t' := t.(activeSshConnections := connections, sessionCommandsMap := commands,
                   sessionObjMap := t.sessionObjMap - {sessionId});
      Removal(t', removed.Some?, Some(session))
  }

  // ---------------------------------------------------------------------------------
  // Requests and responses on the SSH port

  datatype SshCommandRequest = SshCommandRequest(ref: nat, sessionId: int, command: string, timeout: int, stopOnError: bool)
  datatype SshConnectRequest = SshConnectRequest(ref: nat, hostname: string)
  datatype HaltRequest = HaltRequest(ref: nat, sessionId: int)

  datatype SshEvent =
    | SshCommandResponse(commandRequest: SshCommandRequest, sessionId: int, response: string, success: bool)
    | SshConnectResponse(connectRequest: SshConnectRequest, sessionId: int)
    | HaltResponse(haltRequest: HaltRequest, ok: bool)

  /** How `runCommand` ended: its exit code, an IOException or InterruptedException, or an unchecked exception. */
  datatype RunOutcome = Returned(exitCode: int) | CheckedException(message: string) | UncheckedException

  /** How `connect` ended: authenticated, with the shell `startShell` opened (null if it failed), or not. */
  datatype ConnectOutcome = Authenticated(shell: Option<Session>) | NotConnected

  const NullSessionResponse: string := "SshConn or Session obj was null"

  /**
   * `handleSshCommand`: the one response it triggers, or none when `runCommand` throws an
   * unchecked exception. A missing connection or session, or a session that has exited, is
   * answered with the null-session text and success; a `#` command succeeds; any other
   * command fails exactly when `runCommand` returns a negative code or throws.
   */
  function CommandResponse(t: Tables, e: SshCommandRequest, run: RunOutcome): (r: Option<SshEvent>)
    ensures r.Some? ==> r.value.SshCommandResponse? && r.value.commandRequest == e && r.value.sessionId == e.sessionId
    ensures e.sessionId !in t.activeSshConnections ==> r == Some(SshCommandResponse(e, e.sessionId, NullSessionResponse, true))
    ensures SessionOf(t, e.sessionId).None? ==> r == Some(SshCommandResponse(e, e.sessionId, NullSessionResponse, true))
    ensures SessionOf(t, e.sessionId).Some? && SessionOf(t, e.sessionId).value.exitStatus.Some? ==>
              r == Some(SshCommandResponse(e, e.sessionId, NullSessionResponse, true))
    ensures StartsWith(e.command, "#") ==> r.Some? && r.value.success
    ensures r.None? ==> run.UncheckedException?
    ensures e.sessionId in t.activeSshConnections && SessionOf(t, e.sessionId).Some?
            && SessionOf(t, e.sessionId).value.exitStatus.None? ==>
              && (StartsWith(e.command, "#") ==> r == Some(SshCommandResponse(e, e.sessionId, "success", true)))
              && (!StartsWith(e.command, "#") ==>
                    && (run.Returned? ==> r == Some(SshCommandResponse(e, e.sessionId, "success", run.exitCode >= 0)))
                    && (run.CheckedException? ==> r == Some(SshCommandResponse(e, e.sessionId, run.message, false)))
                    && (run.UncheckedException? ==> r.None?))
  {
    var conn := Lookup(t.activeSshConnections, IntegerKey(e.sessionId));
    var session := SessionOf(t, e.sessionId);
    if conn.None? || session.None? || session.value.exitStatus.Some? then
      Some(SshCommandResponse(e, e.sessionId, NullSessionResponse, true))
    else if StartsWith(e.command, "#") then
      Some(SshCommandResponse(e, e.sessionId, "success", true))
    else
      match run
      case Returned(code) => Some(SshCommandResponse(e, e.sessionId, "success", code >= 0))
      case CheckedException(message) => Some(SshCommandResponse(e, e.sessionId, message, false))
      case UncheckedException => None
  }

  /** The command `handleSshConnectRequest` and `connect` record for a new session. */
  function ConnectCommand(t: Tables): CommandSpec {
    CommandSpec("#connect", SshConnectTimeout, |t.sessionCommandsMap|, true)
  }

  /**
   * `handleSshConnectRequest`: an authenticated connection adds its shell as a session and
   * answers with the id `addSession` returns; any failure answers -1 and changes nothing.
   */
  function Connected(t: Tables, e: SshConnectRequest, outcome: ConnectOutcome): (r: (Tables, SshEvent))
    ensures outcome.NotConnected? ==> r == (t, SshConnectResponse(e, -1))
    ensures outcome.Authenticated? ==>
      && r.1 == SshConnectResponse(e, t.sessionCounter + 1)
      && r.0.sessionCounter == t.sessionCounter + 1
      && r.0.sessionObjMap == t.sessionObjMap[t.sessionCounter := outcome.shell]
      && t.sessionCounter in r.0.sessionCommandsMap
      && var commands := r.0.sessionCommandsMap[t.sessionCounter];
         |commands| > 0 && commands[|commands| - 1] == CommandSpec("#connect", SshConnectTimeout, |t.sessionCommandsMap|, true)
    ensures outcome.Authenticated? ==>
      && r.0 == SessionAdded(t, outcome.shell, ConnectCommand(t)).0
      && forall k :: k != t.sessionCounter ==>
           (k in r.0.sessionCommandsMap <==> k in t.sessionCommandsMap)
           && (k in t.sessionCommandsMap ==> r.0.sessionCommandsMap[k] == t.sessionCommandsMap[k])
    ensures r.0.activeSshConnections == t.activeSshConnections
  {
    match outcome
    case NotConnected => (t, SshConnectResponse(e, -1))
    case Authenticated(shell) =>
      var (t', id) := SessionAdded(t, shell, ConnectCommand(t));
      (t', SshConnectResponse(e, id))
  }

  /** `handleHaltRequest`: removes the session and answers true, whatever `removeSession` returned. */
  function Halted(t: Tables, e: HaltRequest): (r: (Removal, SshEvent))
    ensures r.0 == SessionRemoved(t, e.sessionId)
    ensures r.1 == HaltResponse(e, true) && !r.0.status
  {
    (SessionRemoved(t, e.sessionId), HaltResponse(e, true))
  }

  /** The handlers subscribed by the constructor. */
  datatype SshHandler =
    | DownloadMd5ResponseHandler
    | UploadMd5ResponseHandler
    | SshCommandHandler
    | SshConnectRequestHandler
    | HaltRequestHandler

  class SshComponent {
    var sessionCounter: int
    var activeSshConnections: map<int, SshConn>
    var sessionObjMap: map<int, Option<Session>>
    var sessionCommandsMap: map<int, seq<CommandSpec>>
    var subscriptions: seq<SshHandler>
    var responses: seq<SshEvent>
    var closedSessions: seq<Session>

    function State(): Tables
      reads this
    {
      Tables(sessionCounter, activeSshConnections, sessionObjMap, sessionCommandsMap)
    }

    /** The counter at 0, all tables empty, the five handlers subscribed. */
    constructor ()
      ensures State() == InitialTables()
      ensures subscriptions == [DownloadMd5ResponseHandler, UploadMd5ResponseHandler,
                                SshCommandHandler, SshConnectRequestHandler, HaltRequestHandler]
      ensures responses == [] && closedSessions == []
    {
      sessionCounter := 0;
      activeSshConnections := map[];
      sessionObjMap := map[];
      sessionCommandsMap := map[];
      subscriptions := [DownloadMd5ResponseHandler, UploadMd5ResponseHandler,
                        SshCommandHandler, SshConnectRequestHandler, HaltRequestHandler];
      responses := [];
      closedSessions := [];
    }

    method AddSession(session: Option<Session>, command: CommandSpec) returns (id: int)
      modifies this`sessionCommandsMap, this`sessionObjMap, this`sessionCounter
      ensures (State(), id) == SessionAdded(old(State()), session, command)
    {
      var listCommands: seq<CommandSpec> := [];
      if sessionCounter in sessionCommandsMap {
        listCommands := sessionCommandsMap[sessionCounter];
      }
      listCommands := listCommands + [command];
      sessionCommandsMap := sessionCommandsMap[sessionCounter := listCommands];
      sessionObjMap := sessionObjMap[sessionCounter := session];
      sessionCounter := sessionCounter + 1;
      id := sessionCounter;
    }

    method RemoveSession(sessionId: int) returns (status: bool)
      modifies this`activeSshConnections, this`sessionCommandsMap, this`sessionObjMap, this`closedSessions
      ensures var r := SessionRemoved(old(State()), sessionId);
        && State() == r.tables && status == r.status
        && closedSessions == old(closedSessions) + (if r.closed.Some? then [r.closed.value] else [])
    {
      var session := SessionOf(State(), sessionId);
      if session.None? {
        return false;
      }
      closedSessions := closedSessions + [session.value];
      var (connections, removed) := RemoveKey(activeSshConnections, SessionKey(session.value));
      activeSshConnections := connections;
      status := removed.Some?;
      var (commands, _) := RemoveKey(sessionCommandsMap, SessionKey(session.value));
      sessionCommandsMap := commands;
      sessionObjMap := sessionObjMap - {sessionId};
    }

    method HandleSshCommand(e: SshCommandRequest, run: RunOutcome)
      modifies this`responses
      ensures var r := CommandResponse(State(), e, run);
        responses == old(responses) + (if r.Some? then [r.value] else [])
    {
      var conn := Lookup(activeSshConnections, IntegerKey(e.sessionId));
      var session := SessionOf(State(), e.sessionId);
      var commandResponse := "success";
      var commandFailed := false;
      if conn.None? || session.None? || session.value.exitStatus.Some? {
        commandResponse := NullSessionResponse;
      } else if StartsWith(e.command, "#") {
      } else {
        match run
        case Returned(code) =>
          commandFailed := code < 0;
        case CheckedException(message) =>
          commandResponse := message;
          commandFailed := true;
        case UncheckedException =>
          return;
      }
      responses := responses + [SshCommandResponse(e, e.sessionId, commandResponse, !commandFailed)];
    }

    method HandleSshConnectRequest(e: SshConnectRequest, outcome: ConnectOutcome)
      modifies this`sessionCommandsMap, this`sessionObjMap, this`sessionCounter, this`responses
      ensures var (t', response) := Connected(old(State()), e, outcome);
        State() == t' && responses == old(responses) + [response]
    {
      var sessionId := -1;
      if outcome.Authenticated? {
        sessionId := AddSession(outcome.shell, CommandSpec("#connect", SshConnectTimeout, |sessionCommandsMap|, true));
      }
      responses := responses + [SshConnectResponse(e, sessionId)];
    }

    method HandleHaltRequest(e: HaltRequest)
      modifies this`activeSshConnections, this`sessionCommandsMap, this`sessionObjMap, this`closedSessions, this`responses
      ensures var (removal, response) := Halted(old(State()), e);
        && State() == removal.tables && responses == old(responses) + [response]
        && closedSessions == old(closedSessions) + (if removal.closed.Some? then [removal.closed.value] else [])
    {
      var _ := RemoveSession(e.sessionId);
      responses := responses + [HaltResponse(e, true)];
    }
  }

  // ---------------------------------------------------------------------------------
  // Properties of request sequences

  datatype SshRequest =
    | CommandRequest(command: SshCommandRequest, run: RunOutcome)
    | ConnectRequest(connect: SshConnectRequest, outcome: ConnectOutcome)
    | Halt(halt: HaltRequest)

  /** The tables after one request, and the responses it triggered. */
  function Step(t: Tables, q: SshRequest): (Tables, seq<SshEvent>) {
    match q
    case CommandRequest(e, run) =>
      var r := CommandResponse(t, e, run);
      (t, if r.Some? then [r.value] else [])
    case ConnectRequest(e, outcome) =>
      var (t', response) := Connected(t, e, outcome);
      (t', [response])
    case Halt(e) =>
      var (removal, response) := Halted(t, e);
      (removal.tables, [response])
  }

  function Run(t: Tables, qs: seq<SshRequest>): (Tables, seq<SshEvent>)
    decreases |qs|
  {
    if |qs| == 0 then (t, [])
    else
      var (t1, out1) := Step(t, qs[0]);
      var (t2, out2) := Run(t1, qs[1..]);
      (t2, out1 + out2)
  }

  /** A response that reports a command as run without a connection. */
  predicate NullCommandResponse(ev: SshEvent) {
    ev.SshCommandResponse? ==> ev.response == NullSessionResponse && ev.success
  }

  lemma StepKeepsConsistent(t: Tables, q: SshRequest)
    requires Consistent(t)
    ensures Consistent(Step(t, q).0)
    ensures forall i :: 0 <= i < |Step(t, q).1| ==> NullCommandResponse(Step(t, q).1[i])
  {
    match q
    case CommandRequest(e, run) =>
    case ConnectRequest(e, outcome) =>
      if outcome.Authenticated? {
        AddedIdIsNotStored(t, outcome.shell, ConnectCommand(t));
      }
    case Halt(e) =>
  }

  /**
   * No handler ever stores a connection, so from the initial tables on every command
   * request is answered with the null-session text and success, whatever the command.
   */
  lemma {:induction false} CommandsAlwaysFindNoConnection(t: Tables, qs: seq<SshRequest>)
    requires Consistent(t)
    ensures Consistent(Run(t, qs).0)
    ensures forall i :: 0 <= i < |Run(t, qs).1| ==> NullCommandResponse(Run(t, qs).1[i])
    decreases |qs|
  {
    if |qs| > 0 {
      var (t1, out1) := Step(t, qs[0]);
      StepKeepsConsistent(t, qs[0]);
      CommandsAlwaysFindNoConnection(t1, qs[1..]);
      var (t2, out2) := Run(t1, qs[1..]);
      assert Run(t, qs).1 == out1 + out2;
    }
  }

  /**
   * Right after a successful connect, a halt request for the id it returned finds no
   * session and changes nothing, while the new session stays stored under the id below.
   */
  lemma HaltOfReturnedIdRemovesNothing(t: Tables, e: SshConnectRequest, shell: Option<Session>, h: HaltRequest)
    requires Consistent(t)
    ensures var (t', response) := Connected(t, e, Authenticated(shell));
      && response.SshConnectResponse?
      && (h.sessionId == response.sessionId ==> Halted(t', h).0 == Removal(t', false, None))
      && t'.sessionObjMap[response.sessionId - 1] == shell
  {
    AddedIdIsNotStored(t, shell, ConnectCommand(t));
  }

  lemma InitialConsistent()
    ensures Consistent(InitialTables())
  {
  }
}
