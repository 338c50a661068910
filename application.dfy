/**
 * The scripted peer-to-peer application (p2p/src/main/java/se/sics/kompics/p2p/application/Application.java).
 *
 * The application runs a list of textual operations. A cursor, `lastOperationIndex`,
 * names the operation performed last. Peer operations (`J`, `F`, `L` followed by a peer
 * id) trigger a command for the peer cluster and go straight on to the next operation, as
 * do the two architecture-navigation operations; `NOP` followed by a delay asks the timer
 * for a `DoNextOperation` signal and pauses until it arrives; `X` exits the process; any
 * other operation ends the chain. Java exceptions that end a chain are modelled as the way
 * it stopped.
 */
module P2pApplication {
  import opened Wrappers
  import opened Kompics
  import opened JavaText

  /** The events the application triggers. */
  datatype AppEvent =
    | JoinPeer(peerId: int)
    | FailPeer(peerId: int)
    | LeavePeer(peerId: int)
      /** A SetTimerEvent carrying a new DoNextOperation, to be delivered on `signalChannel`. */
    | SetTimerEvent(timerId: int, signalChannel: Channel, delay: int)

  /** The channels `create` obtains: the peer-cluster command channel and the shared timer's two. */
  datatype AppChannels = AppChannels(peerClusterCommand: Channel, timerSet: Channel, timerSignal: Channel)

  /** The handler methods the application subscribes in `create`. */
  datatype AppHandler = StartApplicationHandler | DoNextOperationHandler

  /** The kind of an operation, by the first of the prefixes J, F, L, NAVBF, NAVDF, NOP, X it starts with. */
  datatype OpKind = Join | Fail | Leave | NavigateBF | NavigateDF | Nop | Shutdown | Unknown

  function Classify(op: string): (k: OpKind)
    ensures k == Join <==> StartsWith(op, "J")
    ensures k == Fail <==> StartsWith(op, "F")
    ensures k == Leave <==> StartsWith(op, "L")
    ensures k == NavigateBF <==> StartsWith(op, "NAVBF")
    ensures k == NavigateDF <==> StartsWith(op, "NAVDF")
    ensures k == Nop <==> StartsWith(op, "NOP")
    ensures k == Shutdown <==> StartsWith(op, "X")
    ensures k.Join? || k.Fail? || k.Leave? ==> |op| >= 1
    ensures k.Nop? ==> |op| >= 3
  {
    StartsWithChars(op, "NAVBF");
    StartsWithChars(op, "NAVDF");
    StartsWithChars(op, "NOP");
    if StartsWith(op, "J") then Join
    else if StartsWith(op, "F") then Fail
    else if StartsWith(op, "L") then Leave
    else if StartsWith(op, "NAVBF") then
      assert op[1] == 'A' && op[2] == 'V';
      NavigateBF
    else if StartsWith(op, "NAVDF") then
      assert op[1] == 'A' && op[2] == 'V';
      NavigateDF
    else if StartsWith(op, "NOP") then Nop
    else if StartsWith(op, "X") then Shutdown
    else Unknown
  }

  /** How a chain of operations ended. */
  datatype Stop =
    | AllDone           // the cursor reached the end of the list
    | AwaitingTimer     // a NOP asked the timer for a DoNextOperation
    | BadOperation      // an operation with none of the known prefixes
    | ShutDown          // X: System.exit(0)
    | NumberFormatError // a peer id or delay that does not parse (NumberFormatException)
    | IndexOutOfBounds  // the cursor went past the end (ArrayIndexOutOfBoundsException)
    | NullOperations    // no StartApplication yet, so `operations` is null (a null dereference)

  /** The triggers a chain emitted, where its cursor ended, and how it ended. */
  datatype Outcome = Outcome(emitted: seq<Trigger<AppEvent>>, cursor: int, stop: Stop)

  function PeerCommand(k: OpKind, peerId: int): AppEvent
    requires k.Join? || k.Fail? || k.Leave?
  {
    match k
    case Join => JoinPeer(peerId)
    case Fail => FailPeer(peerId)
    case Leave => LeavePeer(peerId)
  }

  /** The trigger NOP emits. */
  function TimerRequest(ch: AppChannels, delay: int): Trigger<AppEvent> {
    Trigger(SetTimerEvent(0, ch.timerSignal, delay), ch.timerSet, High)
  }

  /**
   * `doNextOperation` with the cursor at `last`: advance it, then stop at the end or perform
   * the operation. Only a cursor already outside the list gives an index error; otherwise
   * the cursor moves forward and stays within the list, and it ends on the list's length
   * exactly when the chain ran to the end.
   */
  function Continue(ops: seq<string>, last: int, ch: AppChannels): (o: Outcome)
    ensures o.stop == IndexOutOfBounds <==> last + 1 < 0 || last + 1 > |ops|
    ensures o.stop == IndexOutOfBounds ==> o.emitted == [] && o.cursor == last + 1
    ensures o.stop != IndexOutOfBounds ==> last < o.cursor <= |ops|
    ensures o.cursor == |ops| <==> o.stop == AllDone
    ensures o.stop != NullOperations
    decreases |ops| - last, 0
  {
    var i := last + 1;
    if i == |ops| then Outcome([], i, AllDone)
    else if i < 0 || i > |ops| then Outcome([], i, IndexOutOfBounds)
    else Perform(ops, i, ch)
  }

  /**
   * Performs operation `i` (the cursor already on it) and whatever it goes on to. The
   * cursor never moves back or past the end, and the chain ends on the list's length
   * exactly when it ran to the end.
   */
  function Perform(ops: seq<string>, i: int, ch: AppChannels): (o: Outcome)
    requires 0 <= i < |ops|
    ensures i <= o.cursor <= |ops|
    ensures o.stop != IndexOutOfBounds && o.stop != NullOperations
    ensures o.cursor == |ops| <==> o.stop == AllDone
    decreases |ops| - i, 1
  {
    var op := ops[i];
    match Classify(op)
    case Join | Fail | Leave =>
      (match ParseBigInteger(op[1..])
       case None => Outcome([], i, NumberFormatError)
       case Some(peerId) =>
         var rest := Continue(ops, i, ch);
         var command := Trigger(PeerCommand(Classify(op), peerId), ch.peerClusterCommand, DefaultPriority);
         Outcome([command] + rest.emitted, rest.cursor, rest.stop))
    case NavigateBF | NavigateDF => Continue(ops, i, ch)
    case Nop =>
      (match ParseInt(op[3..])
       case None => Outcome([], i, NumberFormatError)
       case Some(delay) => Outcome([TimerRequest(ch, delay)], i, AwaitingTimer))
    case Shutdown => Outcome([], i, ShutDown)
    case Unknown => Outcome([], i, BadOperation)
  }

  // ---------------------------------------------------------------------------------
  // A reference description of one chain, operation by operation

  /** Operation `op` is performed and processing goes straight on to the next one. */
  predicate GoesOn(op: string) {
    match Classify(op)
    case Join | Fail | Leave => ParseBigInteger(op[1..]).Some?
    case NavigateBF | NavigateDF => true
    case _ => false
  }

  /** What a single operation that does not go on leaves the chain with. */
  function Pause(op: string, ch: AppChannels): (o: (seq<Trigger<AppEvent>>, Stop))
    requires !GoesOn(op)
  {
    match Classify(op)
    case Nop =>
      (match ParseInt(op[3..])
       case Some(delay) => ([TimerRequest(ch, delay)], AwaitingTimer)
       case None => ([], NumberFormatError))
    case Shutdown => ([], ShutDown)
    case Unknown => ([], BadOperation)
    case _ => ([], NumberFormatError)
  }

  /** The peer command that an operation which goes on triggers, if it is a peer operation. */
  function CommandOf(op: string, ch: AppChannels): seq<Trigger<AppEvent>>
    requires GoesOn(op)
  {
    match Classify(op)
    case Join | Fail | Leave =>
      [Trigger(PeerCommand(Classify(op), ParseBigInteger(op[1..]).value), ch.peerClusterCommand, DefaultPriority)]
    case _ => []
  }

  /** The peer commands for a run of operations that all go on, in order. */
  function PeerCommands(ops: seq<string>, ch: AppChannels): seq<Trigger<AppEvent>>
    requires forall j :: 0 <= j < |ops| ==> GoesOn(ops[j])
  {
    if |ops| == 0 then [] else CommandOf(ops[0], ch) + PeerCommands(ops[1..], ch)
  }

  /** An operation that goes on adds its command in front of what the rest of the chain emits. */
  lemma {:induction false} ContinueGoesOn(ops: seq<string>, i: int, ch: AppChannels)
    requires 0 <= i < |ops| && GoesOn(ops[i])
    ensures var rest := Continue(ops, i, ch);
      Continue(ops, i - 1, ch) == Outcome(CommandOf(ops[i], ch) + rest.emitted, rest.cursor, rest.stop)
  {
    assert Continue(ops, i - 1, ch) == Perform(ops, i, ch);
  }

  /** An operation that does not go on ends the chain with its own trigger, if any. */
  lemma {:induction false} ContinuePauses(ops: seq<string>, i: int, ch: AppChannels)
    requires 0 <= i < |ops| && !GoesOn(ops[i])
    ensures Continue(ops, i - 1, ch) == Outcome(Pause(ops[i], ch).0, i, Pause(ops[i], ch).1)
  {
    assert Continue(ops, i - 1, ch) == Perform(ops, i, ch);
  }

  lemma {:induction false} PeerCommandsCons(ops: seq<string>, i: int, c: int, ch: AppChannels)
    requires 0 <= i < c <= |ops|
    requires forall j :: i <= j < c ==> GoesOn(ops[j])
    ensures PeerCommands(ops[i..c], ch) == CommandOf(ops[i], ch) + PeerCommands(ops[i + 1..c], ch)
  {
    assert ops[i..c][1..] == ops[i + 1..c];
    assert ops[i..c][0] == ops[i];
  }

  /**
   * One start or resume from cursor `last` performs every operation up to the first one
   * that does not go on (a NOP, an X, an unknown or unparsable operation) or to the end of
   * the list: it emits exactly the peer commands of the operations passed over, in order,
   * followed by the stopping operation's own trigger, and leaves the cursor on the
   * stopping operation, or on the list's length when there is none.
   */
  lemma {:induction false} ContinueRunsToFirstPause(ops: seq<string>, last: int, ch: AppChannels)
    requires -1 <= last < |ops|
    ensures var o := Continue(ops, last, ch);
      && last < o.cursor <= |ops|
      && (forall j :: last < j < o.cursor ==> GoesOn(ops[j]))
      && (o.cursor == |ops| ==> o.stop == AllDone)
      && (o.cursor < |ops| ==> !GoesOn(ops[o.cursor]) && o.stop == Pause(ops[o.cursor], ch).1)
      && o.emitted == PeerCommands(ops[last + 1..o.cursor], ch)
                      + (if o.cursor < |ops| then Pause(ops[o.cursor], ch).0 else [])
    decreases |ops| - last
  {
    var i := last + 1;
    if i < |ops| {
      if GoesOn(ops[i]) {
        ContinueRunsToFirstPause(ops, i, ch);
        ContinueGoesOn(ops, i, ch);
        PeerCommandsCons(ops, i, Continue(ops, i, ch).cursor, ch);
      } else {
        ContinuePauses(ops, i, ch);
      }
    }
  }

  /** Each step advances the cursor by exactly one: a stop at the end of the list triggers nothing. */
  lemma AtEndNothingHappens(ops: seq<string>, ch: AppChannels)
    ensures Continue(ops, |ops| - 1, ch) == Outcome([], |ops|, AllDone)
    ensures Continue(ops, |ops|, ch) == Outcome([], |ops| + 1, IndexOutOfBounds)
  {
  }

  /** The application component. */
  class Application {
    var channels: Option<AppChannels>
    var subscriptions: seq<(Channel, AppHandler)>
    var operations: Option<seq<string>>
    var lastOperationIndex: int
    var triggers: seq<Trigger<AppEvent>>
    var exited: bool

    /** No channels and no operations yet; Java's default zero for the cursor. */
    constructor ()
      ensures channels == None && operations == None && lastOperationIndex == 0
      ensures subscriptions == [] && triggers == [] && !exited
    {
      channels := None;
      subscriptions := [];
      operations := None;
      lastOperationIndex := 0;
      triggers := [];
      exited := false;
    }

    /**
     * `create`: takes the timer's set and signal channels from the shared timer membrane
     * (passed in here) and subscribes the two handlers.
     */
    method Create(startChannel: Channel, peerClusterCommand: Channel, timerSet: Channel, timerSignal: Channel)
      modifies this`channels, this`subscriptions
      ensures channels == Some(AppChannels(peerClusterCommand, timerSet, timerSignal))
      ensures subscriptions == old(subscriptions) + [(startChannel, StartApplicationHandler),
                                                     (timerSignal, DoNextOperationHandler)]
    {
      channels := Some(AppChannels(peerClusterCommand, timerSet, timerSignal));
      subscriptions := subscriptions + [(startChannel, StartApplicationHandler), (timerSignal, DoNextOperationHandler)];
    }

    /** Stores the operations, resets the cursor to -1 and starts the chain at operation 0. */
    method HandleStartApplication(ops: seq<string>) returns (stop: Stop)
      requires channels.Some?
      modifies this`operations, this`lastOperationIndex, this`triggers, this`exited
      ensures operations == Some(ops)
      ensures var o := Continue(ops, -1, channels.value);
        lastOperationIndex == o.cursor && triggers == old(triggers) + o.emitted && stop == o.stop
      ensures exited == (old(exited) || stop == ShutDown)
    {
      operations := Some(ops);
      lastOperationIndex := -1;
      stop := DoNextOperation();
    }

    /** The timer's DoNextOperation signal resumes the chain after a NOP. */
    method HandleDoNextOperation() returns (stop: Stop)
      requires channels.Some?
      modifies this`lastOperationIndex, this`triggers, this`exited
      ensures operations.None? ==>
        lastOperationIndex == old(lastOperationIndex) + 1 && triggers == old(triggers) && stop == NullOperations
      ensures operations.Some? ==> var o := Continue(operations.value, old(lastOperationIndex), channels.value);
        lastOperationIndex == o.cursor && triggers == old(triggers) + o.emitted && stop == o.stop
      ensures exited == (old(exited) || stop == ShutDown)
    {
      stop := DoNextOperation();
    }

    function Remaining(): int
      reads this`operations, this`lastOperationIndex
    {
      if operations.Some? then |operations.value| - lastOperationIndex else 0
    }

    method DoNextOperation() returns (stop: Stop)
      requires channels.Some?
      modifies this`lastOperationIndex, this`triggers, this`exited
      ensures operations.None? ==>
        lastOperationIndex == old(lastOperationIndex) + 1 && triggers == old(triggers) && stop == NullOperations
      ensures operations.Some? ==> var o := Continue(operations.value, old(lastOperationIndex), channels.value);
        lastOperationIndex == o.cursor && triggers == old(triggers) + o.emitted && stop == o.stop
      ensures exited == (old(exited) || stop == ShutDown)
      decreases Remaining(), 0
    {
      lastOperationIndex := lastOperationIndex + 1;
      if operations.None? {
        return NullOperations;
      }
      var ops := operations.value;
      if lastOperationIndex == |ops| {
        return AllDone;
      }
      if lastOperationIndex < 0 || lastOperationIndex > |ops| {
        return IndexOutOfBounds;
      }
      stop := PerformOperation(ops[lastOperationIndex]);
    }

    /** The second half of `doNextOperation`: dispatch on the prefix of the operation under the cursor. */
    method PerformOperation(op: string) returns (stop: Stop)
      requires channels.Some? && operations.Some?
      requires 0 <= lastOperationIndex < |operations.value| && op == operations.value[lastOperationIndex]
      modifies this`lastOperationIndex, this`triggers, this`exited
      ensures var o := Perform(operations.value, old(lastOperationIndex), channels.value);
        lastOperationIndex == o.cursor && triggers == old(triggers) + o.emitted && stop == o.stop
      ensures exited == (old(exited) || stop == ShutDown)
      decreases Remaining(), 2
    {
      if StartsWith(op, "J") {
        stop := DoPeerCommand(op, Join);
      } else if StartsWith(op, "F") {
        stop := DoPeerCommand(op, Fail);
      } else if StartsWith(op, "L") {
        stop := DoPeerCommand(op, Leave);
      } else if StartsWith(op, "NAVBF") {
        stop := DoNavigate(op);
      } else if StartsWith(op, "NAVDF") {
        stop := DoNavigate(op);
      } else if StartsWith(op, "NOP") {
        stop := DoNop(op);
      } else if StartsWith(op, "X") {
        stop := DoShutdown();
      } else {
        stop := BadOperation;
      }
    }

    /** `doJoinPeer`, `doFailPeer` and `doLeavePeer`: parse the peer id, trigger the command, go on. */
    method DoPeerCommand(op: string, kind: OpKind) returns (stop: Stop)
      requires channels.Some? && operations.Some?
      requires 0 <= lastOperationIndex < |operations.value| && op == operations.value[lastOperationIndex]
      requires Classify(op) == kind && (kind.Join? || kind.Fail? || kind.Leave?)
      modifies this`lastOperationIndex, this`triggers, this`exited
      ensures var o := Perform(operations.value, old(lastOperationIndex), channels.value);
        lastOperationIndex == o.cursor && triggers == old(triggers) + o.emitted && stop == o.stop
      ensures exited == (old(exited) || stop == ShutDown)
      decreases Remaining(), 1
    {
      var peerId := ParseBigInteger(op[1..]);
      if peerId.None? {
        return NumberFormatError;
      }
      ghost var before := triggers;
      var command := Trigger(PeerCommand(kind, peerId.value), channels.value.peerClusterCommand, DefaultPriority);
      triggers := triggers + [command];
      stop := DoNextOperation();
      ghost var rest := Continue(operations.value, old(lastOperationIndex), channels.value);
      assert triggers == before + ([command] + rest.emitted);
    }

    /** `doNavigateBF` and `doNavigateDF`: the logged traversal triggers nothing; go on. */
    method DoNavigate(op: string) returns (stop: Stop)
      requires channels.Some? && operations.Some?
      requires 0 <= lastOperationIndex < |operations.value| && op == operations.value[lastOperationIndex]
      requires Classify(op) == NavigateBF || Classify(op) == NavigateDF
      modifies this`lastOperationIndex, this`triggers, this`exited
      ensures var o := Perform(operations.value, old(lastOperationIndex), channels.value);
        lastOperationIndex == o.cursor && triggers == old(triggers) + o.emitted && stop == o.stop
      ensures exited == (old(exited) || stop == ShutDown)
      decreases Remaining(), 1
    {
      stop := DoNextOperation();
    }

    /** `doNop`: parse the delay and ask the timer, at HIGH priority, for a DoNextOperation. */
    method DoNop(op: string) returns (stop: Stop)
      requires channels.Some? && operations.Some?
      requires 0 <= lastOperationIndex < |operations.value| && op == operations.value[lastOperationIndex]
      requires Classify(op) == Nop
      modifies this`triggers
      ensures var o := Perform(operations.value, lastOperationIndex, channels.value);
        triggers == old(triggers) + o.emitted && stop == o.stop
      ensures stop != ShutDown
    {
      var delay := ParseInt(op[3..]);
      if delay.None? {
        return NumberFormatError;
      }
      triggers := triggers + [TimerRequest(channels.value, delay.value)];
      stop := AwaitingTimer;
    }

    /** `doShutdown`: System.exit(0). */
    method DoShutdown() returns (stop: Stop)
      modifies this`exited
      ensures exited && stop == ShutDown
    {
      exited := true;
      stop := ShutDown;
    }
  }
}
