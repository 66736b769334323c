/**
 * `NamedPipeListener<T>`: a listener that holds at most one server
 * endpoint, accepts one connection at a time, decodes one message per
 * connection, hands it to `MessageReceived`, then releases the endpoint and
 * listens again. The transport and the message codec are not modelled:
 * what each of their calls does (succeeds, fails, decodes which value) is
 * passed in, and the listener records the endpoint it holds, the calls it
 * makes on endpoints, the error tags it reports through `Error` and the
 * messages it delivers.
 */
module NamedPipes {
  import opened Wrappers

  /** `NamedPipeListenerErrorType`: where in the listening cycle an exception was caught. */
  datatype ErrorType =
    | BeginWaitForConnection
    | EndWaitForConnection
    | DeserializeMessage
    | CloseAndDisposePipe
    | NotifyMessageReceived

  /** The byte value of each error type. */
  function Code(e: ErrorType): (code: byte)
    ensures 1 <= code <= 5
  {
    match e
    case BeginWaitForConnection => 1
    case EndWaitForConnection => 2
    case DeserializeMessage => 3
    case CloseAndDisposePipe => 4
    case NotifyMessageReceived => 5
  }

  /** Each error type has its own code. */
  lemma CodesDistinct(e: ErrorType, f: ErrorType)
    ensures Code(e) == Code(f) <==> e == f
  {
  }

  /** A `WellKnownSidType` value; `NullSid` is 0. */
  type SidType = nat
  const NullSid: SidType := 0

  datatype PipeAccessRights = ReadWrite
  datatype AccessControlType = Allow | Deny

  datatype PipeAccessRule = PipeAccessRule(sid: SidType, rights: PipeAccessRights, control: AccessControlType)

  /** A pipe's access-control list. */
  datatype PipeSecurity = PipeSecurity(rules: seq<PipeAccessRule>)

  /** The access rights a policy grants `sid`. */
  predicate Grants(ps: PipeSecurity, sid: SidType, rights: PipeAccessRights) {
    exists i :: 0 <= i < |ps.rules| && ps.rules[i] == PipeAccessRule(sid, rights, Allow)
  }

  /**
   * `GetPipeSecurityObject`: no policy (the system default) for `NullSid`,
   * otherwise one rule allowing that SID to read and write.
   */
  function GetPipeSecurityObject(sid: SidType): (ps: Option<PipeSecurity>)
    ensures ps.None? <==> sid == NullSid
    ensures ps.Some? ==> |ps.value.rules| == 1 && Grants(ps.value, sid, ReadWrite)
  {
    if sid == NullSid then None
    else
      var ps := PipeSecurity([PipeAccessRule(sid, ReadWrite, Allow)]);
      assert ps.rules[0] == PipeAccessRule(sid, ReadWrite, Allow);
      Some(ps)
  }

  /** The policy grants read-write access to its own SID and to no other. */
  lemma SecurityGrantsOnlyItsSid(sid: SidType, other: SidType)
    requires sid != NullSid
    ensures Grants(GetPipeSecurityObject(sid).value, other, ReadWrite) <==> other == sid
  {
  }

  /**
   * `DEFAULT_PIPENAME`, the full name of the closed generic type, for a
   * type argument whose assembly-qualified name is `typeArgument`.
   */
  function DefaultPipeName(typeArgument: string): (name: string)
    ensures |name| == |GenericTypePrefix| + |typeArgument| + 2
    ensures name[..|GenericTypePrefix|] == GenericTypePrefix && name[|name| - 2..] == "]]"
    ensures name[|GenericTypePrefix|..|name| - 2] == typeArgument
  {
    GenericTypePrefix + typeArgument + "]]"
  }

  /** The full name of the open generic type, up to its type argument list. */
  const GenericTypePrefix: string := "Feodosiya.Lib.IO.Pipes.NamedPipeListener`1[["

  /** Distinct type arguments give distinct default pipe names. */
  lemma DefaultPipeNameInjective(a: string, b: string)
    requires DefaultPipeName(a) == DefaultPipeName(b)
    ensures a == b
  {
  }

  /** A server endpoint (`NamedPipeServerStream`): a serial number, its pipe name and its access policy. */
  datatype Endpoint = Endpoint(id: nat, name: string, security: Option<PipeSecurity>)

  /** A call the listener makes on a server endpoint. */
  datatype TransportCall =
    | BeginWait(id: nat)       // BeginWaitForConnection
    | EndWait(id: nat)         // EndWaitForConnection
    | Deserialize(id: nat)     // formatter.Deserialize(pipeServer)
    | Close(id: nat)
    | DisposeEndpoint(id: nat)
    | Disconnect(id: nat)

  /** What the transport, the codec and the handlers do during one connection callback. */
  datatype Outcomes<T> = Outcomes(
    endWaitOk: bool,     // EndWaitForConnection returns
    message: Option<T>,  // the decoded message, None if Deserialize or the cast throws
    dispatchOk: bool,    // every MessageReceived handler returns
    closeOk: bool,       // End: Close returns
    disposeOk: bool,     // End: Dispose returns
    constructOk: bool,   // Start: the new NamedPipeServerStream is created
    beginOk: bool)       // Start: BeginWaitForConnection returns

  /** The calls `End` makes: Close, and Dispose only if Close returned; none without an endpoint. */
  function EndCalls(held: Option<Endpoint>, closeOk: bool): (calls: seq<TransportCall>)
    ensures held.None? ==> calls == []
    ensures held.Some? ==> |calls| == (if closeOk then 2 else 1) && calls[0] == Close(held.value.id)
    ensures held.Some? && closeOk ==> calls[1] == DisposeEndpoint(held.value.id)
  {
    if held.None? then [] else [Close(held.value.id)] + (if closeOk then [DisposeEndpoint(held.value.id)] else [])
  }

  /** The phase a callback stops at. */
  datatype CycleEnd = EndWaitFailed | DecodeFailed | DispatchFailed | EndFailed | Relistened

  /** Where a callback on a listener that holds `held` stops. */
  function CycleStop<T>(held: bool, o: Outcomes<T>): CycleEnd {
    if !held || !o.endWaitOk then EndWaitFailed
    else if o.message.None? then DecodeFailed
    else if !o.dispatchOk then DispatchFailed
    else if !(o.closeOk && o.disposeOk) then EndFailed
    else Relistened
  }

  /** The error tags one callback reports. */
  function CycleErrors<T>(held: bool, o: Outcomes<T>): (errors: seq<ErrorType>)
    ensures |errors| <= 1
  {
    match CycleStop(held, o)
    case EndWaitFailed => [EndWaitForConnection]
    case DecodeFailed => [DeserializeMessage]
    case DispatchFailed => [NotifyMessageReceived]
    case EndFailed => [CloseAndDisposePipe]
    case Relistened => if o.constructOk && !o.beginOk then [BeginWaitForConnection] else []
  }

  /** The messages one callback delivers to `MessageReceived`. */
  function CycleDelivered<T>(held: bool, o: Outcomes<T>): (delivered: seq<T>)
    ensures |delivered| <= 1
  {
    if held && o.endWaitOk && o.message.Some? then [o.message.value] else []
  }

  /**
   * The calls one callback makes on `held` (and, after a clean release, on
   * the endpoint `Start` creates with serial `next`).
   */
  function CycleCalls<T>(held: Option<Endpoint>, next: nat, o: Outcomes<T>): seq<TransportCall> {
    if held.None? then []
    else
      var id := held.value.id;
      if !o.endWaitOk then [EndWait(id)]
      else if o.message.None? then [EndWait(id), Deserialize(id)]
      else if !o.dispatchOk then [EndWait(id), Deserialize(id)]
      else
        [EndWait(id), Deserialize(id)] + EndCalls(held, o.closeOk) +
        (if o.closeOk && o.disposeOk && o.constructOk then [BeginWait(next)] else [])
  }

  /**
   * Each failing phase of a callback reports its own tag and nothing else,
   * and a callback that releases its endpoint reports at most the restart's
   * own `BeginWaitForConnection` failure.
   */
  lemma CycleErrorTags<T>(held: bool, o: Outcomes<T>)
    ensures CycleErrors(held, o) == [EndWaitForConnection] <==> !held || !o.endWaitOk
    ensures CycleErrors(held, o) == [DeserializeMessage] <==> held && o.endWaitOk && o.message.None?
    ensures CycleErrors(held, o) == [NotifyMessageReceived] <==>
      held && o.endWaitOk && o.message.Some? && !o.dispatchOk
    ensures CycleErrors(held, o) == [CloseAndDisposePipe] <==>
      held && o.endWaitOk && o.message.Some? && o.dispatchOk && !(o.closeOk && o.disposeOk)
    ensures CycleErrors(held, o) == [BeginWaitForConnection] <==>
      CycleStop(held, o) == Relistened && o.constructOk && !o.beginOk
  {
  }

  /** A message is delivered exactly when the accept and the decoding both succeed, and it is the decoded one. */
  lemma DeliveredIffDecoded<T>(held: bool, o: Outcomes<T>)
    ensures CycleDelivered(held, o) != [] <==> CycleStop(held, o) !in {EndWaitFailed, DecodeFailed}
    ensures CycleDelivered(held, o) != [] ==> CycleDelivered(held, o) == [o.message.value]
  {
  }

  /**
   * Once a phase fails no later phase runs: a failed accept makes no other
   * call, a failed decoding or dispatch never closes the endpoint, and the
   * endpoint is listened on again only after it was closed and disposed.
   */
  lemma NoCallAfterFailure<T>(held: Option<Endpoint>, next: nat, o: Outcomes<T>)
    ensures var calls := CycleCalls(held, next, o);
      && (CycleStop(held.Some?, o) == EndWaitFailed ==> |calls| <= 1)
      && (CycleStop(held.Some?, o) in {DecodeFailed, DispatchFailed} ==> |calls| == 2)
      && (BeginWait(next) in calls <==> CycleStop(held.Some?, o) == Relistened && o.constructOk)
      && (BeginWait(next) in calls ==> calls[..4] == [EndWait(held.value.id), Deserialize(held.value.id),
                                                      Close(held.value.id), DisposeEndpoint(held.value.id)])
  {
  }

  class NamedPipeListener<T> {
    const pipeName: string
    const sidType: SidType
    /** `pipeServer`: the endpoint held, if any. */
    var pipeServer: Option<Endpoint>
    /** How many endpoints this listener has created: the next serial number. */
    var created: nat
    /** The endpoints `End` closed, disposed and dropped. */
    var released: set<nat>
    /** The calls made on endpoints, oldest first. */
    var calls: seq<TransportCall>
    /** The tags reported through `Error`, oldest first. */
    var errors: seq<ErrorType>
    /** The messages passed to `MessageReceived`, oldest first. */
    var received: seq<T>

    /** The serial number of the endpoint held, as a set. */
    ghost function Held(): set<nat>
      reads this`pipeServer
    {
      if pipeServer.Some? then {pipeServer.value.id} else {}
    }

    /**
     * The listener leaks nothing: the endpoint it holds is the last one it
     * created, with its pipe name and access policy, and every other
     * endpoint it created has been released.
     */
    ghost predicate Valid()
      reads this`pipeServer, this`created, this`released
    {
      && (pipeServer.Some? ==>
            pipeServer.value.id + 1 == created && pipeServer.value.name == pipeName &&
            pipeServer.value.security == GetPipeSecurityObject(sidType))
      && Held() !! released
      && (forall id :: id in released ==> id < created)
      && (forall id: nat | id < created :: id in released || id in Held())
    }

    /** `NamedPipeListener(pipeName, sidType)`. */
    constructor (pipeName: string, sidType: SidType)
      ensures this.pipeName == pipeName && this.sidType == sidType
      ensures pipeServer.None? && created == 0 && released == {}
      ensures calls == [] && errors == [] && received == []
      ensures Valid()
    {
      this.pipeName, this.sidType := pipeName, sidType;
      pipeServer, created, released := None, 0, {};
      calls, errors, received := [], [], [];
    }

    /** `NamedPipeListener(pipeName)`: SidType keeps its default, NullSid. */
    constructor Named(pipeName: string)
      ensures this.pipeName == pipeName && sidType == NullSid
      ensures pipeServer.None? && created == 0 && released == {}
      ensures calls == [] && errors == [] && received == []
      ensures Valid()
    {
      this.pipeName, sidType := pipeName, NullSid;
      pipeServer, created, released := None, 0, {};
      calls, errors, received := [], [], [];
    }

    /** `NamedPipeListener()`: the default pipe name of the type. */
    constructor Default(typeArgument: string)
      ensures pipeName == DefaultPipeName(typeArgument) && sidType == NullSid
      ensures pipeServer.None? && created == 0 && released == {}
      ensures calls == [] && errors == [] && received == []
      ensures Valid()
    {
      pipeName, sidType := DefaultPipeName(typeArgument), NullSid;
      pipeServer, created, released := None, 0, {};
      calls, errors, received := [], [], [];
    }

    /**
     * `Start()`: create an endpoint if none is held (outside the try block,
     * so a failure there escapes as `thrown`), then begin waiting for a
     * connection; a failure of that call is reported as
     * `BeginWaitForConnection` and does not escape.
     */
    method Start(constructOk: bool, beginOk: bool) returns (thrown: bool)
      requires Valid()
      modifies this`pipeServer, this`created, this`calls, this`errors
      ensures Valid()
      ensures thrown <==> old(pipeServer).None? && !constructOk
      ensures thrown ==>
        pipeServer == old(pipeServer) && created == old(created) && calls == old(calls) && errors == old(errors)
      ensures !thrown ==>
        && pipeServer == (if old(pipeServer).Some? then old(pipeServer)
                          else Some(Endpoint(old(created), pipeName, GetPipeSecurityObject(sidType))))
        && created == old(created) + (if old(pipeServer).Some? then 0 else 1)
        && calls == old(calls) + [BeginWait(pipeServer.value.id)]
        && errors == old(errors) + (if beginOk then [] else [BeginWaitForConnection])
    {
      if pipeServer.None? {
        if !constructOk {
          return true;
        }
        pipeServer := Some(Endpoint(created, pipeName, GetPipeSecurityObject(sidType)));
        created := created + 1;
      }
      calls := calls + [BeginWait(pipeServer.value.id)];
      if !beginOk {
        errors := errors + [BeginWaitForConnection];
      }
      thrown := false;
    }

    /**
     * `End()`: close and dispose the endpoint and drop it. Any failure,
     * including having no endpoint at all, is reported as
     * `CloseAndDisposePipe` and leaves the reference in place.
     */
    method End(closeOk: bool, disposeOk: bool) returns (ok: bool)
      requires Valid()
      modifies this`pipeServer, this`released, this`calls, this`errors
      ensures Valid()
      ensures ok <==> old(pipeServer).Some? && closeOk && disposeOk
      ensures ok ==>
        pipeServer.None? && released == old(released) + {old(pipeServer).value.id} && errors == old(errors)
      ensures !ok ==>
        pipeServer == old(pipeServer) && released == old(released) && errors == old(errors) + [CloseAndDisposePipe]
      ensures calls == old(calls) + EndCalls(old(pipeServer), closeOk)
    {
      if pipeServer.None? {
        errors := errors + [CloseAndDisposePipe];
        return false;
      }
      var id := pipeServer.value.id;
      calls := calls + [Close(id)];
      if !closeOk {
        errors := errors + [CloseAndDisposePipe];
        return false;
      }
      calls := calls + [DisposeEndpoint(id)];
      if !disposeOk {
        errors := errors + [CloseAndDisposePipe];
        return false;
      }
      released := released + {id};
      pipeServer := None;
      ok := true;
    }

    /**
     * `PipeConnectionCallback`: accept, decode, dispatch, each in its own try
     * block that reports its tag and returns; after a clean dispatch, `End`,
     * and `Start` again only if `End` returned true. `thrown` is a failure of
     * that restart's endpoint construction, which nothing catches.
     */
    method PipeConnectionCallback(o: Outcomes<T>) returns (thrown: bool)
      requires Valid()
      modifies this`pipeServer, this`created, this`released, this`calls, this`errors, this`received
      ensures Valid()
      ensures var stop := CycleStop(old(pipeServer).Some?, o);
        && errors == old(errors) + CycleErrors(old(pipeServer).Some?, o)
        && received == old(received) + CycleDelivered(old(pipeServer).Some?, o)
        && calls == old(calls) + CycleCalls(old(pipeServer), old(created), o)
        && (thrown <==> stop == Relistened && !o.constructOk)
        && (stop != Relistened ==>
              pipeServer == old(pipeServer) && created == old(created) && released == old(released))
        && (stop == Relistened ==>
              && released == old(released) + {old(pipeServer).value.id}
              && created == old(created) + (if o.constructOk then 1 else 0)
              && pipeServer == (if o.constructOk
                                then Some(Endpoint(old(created), pipeName, GetPipeSecurityObject(sidType)))
                                else None))
    {
      if pipeServer.None? {
        // EndWaitForConnection on a missing endpoint throws.
        errors := errors + [EndWaitForConnection];
        return false;
      }
      var id := pipeServer.value.id;
      calls := calls + [EndWait(id)];
      if !o.endWaitOk {
        errors := errors + [EndWaitForConnection];
        return false;
      }
      calls := calls + [Deserialize(id)];
      if o.message.None? {
        errors := errors + [DeserializeMessage];
        return false;
      }
      received := received + [o.message.value];
      if !o.dispatchOk {
        errors := errors + [NotifyMessageReceived];
        return false;
      }
      var ended := End(o.closeOk, o.disposeOk);
      if ended {
        thrown := Start(o.constructOk, o.beginOk);
      } else {
        thrown := false;
      }
    }

    /**
     * `IDisposable.Dispose()`: Disconnect, Close and Dispose the endpoint,
     * each attempted whatever the others do, with every failure swallowed
     * and nothing reported; the reference itself is kept.
     */
    method Dispose()
      modifies this`calls
      ensures calls == old(calls) +
        (if pipeServer.Some? then
           [Disconnect(pipeServer.value.id), Close(pipeServer.value.id), DisposeEndpoint(pipeServer.value.id)]
         else [])
    {
      if pipeServer.Some? {
        var id := pipeServer.value.id;
        calls := calls + [Disconnect(id)];
        calls := calls + [Close(id)];
        calls := calls + [DisposeEndpoint(id)];
      }
    }
  }

  // ---------------------------------------------------------------------
  // Sending.

  /** The steps of `SendMessage`, in the order the source performs them. */
  datatype SendPhase = Open | Connect | Serialize | Flush | WaitForPipeDrain | CloseClient

  const SendPhases: seq<SendPhase> := [Open, Connect, Serialize, Flush, WaitForPipeDrain, CloseClient]

  /** The steps of `phases` performed when step `failAt` (if any) throws: up to and including it. */
  function Attempted(phases: seq<SendPhase>, failAt: Option<SendPhase>): (done: seq<SendPhase>)
    ensures |done| <= |phases| && done == phases[..|done|]
    ensures failAt.None? || failAt.value !in phases ==> done == phases
    ensures failAt.Some? && failAt.value in phases ==>
      done != [] && done[|done| - 1] == failAt.value && failAt.value !in done[..|done| - 1]
  {
    if phases == [] then []
    else if failAt == Some(phases[0]) then [phases[0]]
    else
      var rest := Attempted(phases[1..], failAt);
      assert [phases[0]] + rest == phases[..|rest| + 1];
      [phases[0]] + rest
  }

  /**
   * What `SendMessage(pipeName, message)` does: the steps performed, whether
   * the `using` block disposed the client, and the exception that escapes
   * (nothing is caught).
   */
  datatype SendOutcome<T> = SendOutcome(
    pipeName: string,
    payload: T,
    steps: seq<SendPhase>,
    disposed: bool,
    failure: Option<SendPhase>)

  function SendMessage<T>(pipeName: string, message: T, failAt: Option<SendPhase>): (r: SendOutcome<T>)
    ensures r.pipeName == pipeName && r.payload == message && r.failure == failAt
    ensures r.steps == SendPhases[..if failAt.None? then |SendPhases| else StepIndex(failAt.value) + 1]
    ensures r.disposed <==> Connect in r.steps // the client was constructed, so `using` disposes it
  {
    AttemptedSendPhases(failAt);
    SendOutcome(pipeName, message, Attempted(SendPhases, failAt), failAt != Some(Open), failAt)
  }

  /** `SendMessage(message)`: the same, on the default pipe name. */
  function SendMessageDefault<T>(typeArgument: string, message: T, failAt: Option<SendPhase>): (r: SendOutcome<T>)
    ensures r == SendMessage(DefaultPipeName(typeArgument), message, failAt)
  {
    SendMessage(DefaultPipeName(typeArgument), message, failAt)
  }

  /** The position of a step in `SendPhases`. */
  function StepIndex(p: SendPhase): (i: nat)
    ensures i < |SendPhases| && SendPhases[i] == p
    ensures forall j :: 0 <= j < i ==> SendPhases[j] != p
  {
    match p
    case Open => 0
    case Connect => 1
    case Serialize => 2
    case Flush => 3
    case WaitForPipeDrain => 4
    case CloseClient => 5
  }

  /** `SendMessage` performs the steps of `SendPhases` up to and including the one that throws. */
  lemma AttemptedSendPhases(failAt: Option<SendPhase>)
    ensures Attempted(SendPhases, failAt) ==
      SendPhases[..if failAt.None? then |SendPhases| else StepIndex(failAt.value) + 1]
  {
    var done := Attempted(SendPhases, failAt);
    if failAt.Some? {
      var p, k := failAt.value, |done|;
      var i := StepIndex(p);
      assert SendPhases[k - 1] == done[k - 1] == p;
      assert k == i + 1;
    }
  }

  /**
   * Sending is fail-fast: without a failure every step runs, in order;
   * with one, the steps before it ran and it is the last.
   */
  lemma SendFailFast<T>(pipeName: string, message: T, failAt: Option<SendPhase>)
    ensures var r := SendMessage(pipeName, message, failAt);
      && (failAt.None? ==> r.steps == [Open, Connect, Serialize, Flush, WaitForPipeDrain, CloseClient])
      && (failAt.Some? ==> r.steps[|r.steps| - 1] == failAt.value && failAt.value !in r.steps[..|r.steps| - 1])
  {
    AttemptedSendPhases(failAt);
  }

  /** The pipe is drained before the client is closed. */
  lemma DrainBeforeClose<T>(pipeName: string, message: T, failAt: Option<SendPhase>)
    ensures var r := SendMessage(pipeName, message, failAt);
      CloseClient in r.steps ==> |r.steps| == 6 && r.steps[4] == WaitForPipeDrain
  {
    var steps := SendMessage(pipeName, message, failAt).steps;
    AttemptedSendPhases(failAt);
    if CloseClient in steps {
      var i :| 0 <= i < |steps| && steps[i] == CloseClient;
      assert StepIndex(CloseClient) <= i;
      assert steps[4] == SendPhases[4];
    }
  }

  /** The client connects before it writes the message. */
  lemma ConnectBeforeSerialize<T>(pipeName: string, message: T, failAt: Option<SendPhase>)
    ensures var r := SendMessage(pipeName, message, failAt);
      Serialize in r.steps ==> |r.steps| >= 3 && r.steps[0] == Open && r.steps[1] == Connect
  {
    var steps := SendMessage(pipeName, message, failAt).steps;
    AttemptedSendPhases(failAt);
    if Serialize in steps {
      var i :| 0 <= i < |steps| && steps[i] == Serialize;
      assert StepIndex(Serialize) <= i;
      assert steps[0] == SendPhases[0] && steps[1] == SendPhases[1];
    }
  }

  /** The default listener and the default sender use the same pipe name. */
  lemma DefaultNameShared<T>(typeArgument: string, message: T, failAt: Option<SendPhase>)
    ensures SendMessageDefault(typeArgument, message, failAt).pipeName == DefaultPipeName(typeArgument)
  {
  }
}
