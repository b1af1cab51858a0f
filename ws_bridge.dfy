/** apps/api-fresh/ws_bridge.ts: the bridge that pipes DevTools frames between an external client
    socket and a browser container's socket. Socket events (open, error, close, an incoming frame)
    and the connect timer firing are methods the environment calls; whether a `send` throws is a
    parameter. */
module Bridge {
  import opened Wrappers
  import Http

  const DefaultConnectTimeoutMs := 30000
  const HandlerTimeoutMs := 30000
  const TargetFailedMessage := "Failed to connect to target browser"
  const TimeoutMessage := "Connection timeout"
  const BridgeFailedCode := 1011
  const BridgeFailedReason := "Failed to connect to browser"
  const MissingSessionText := "Missing sessionId parameter"
  const UnknownSessionText := "Session not found or not ready"

  datatype ReadyState = Connecting | Open | Closing | Closed

  /** One `close(code?, reason?)` request. */
  datatype CloseCall = CloseCall(code: Option<int>, reason: Option<string>)

  /** The promise `connect` returns; it settles at most once. */
  datatype Settlement = NoPromise | Waiting | Resolved | Rejected(reason: string)

  function Resolve(s: Settlement): (t: Settlement)
    ensures t == if s == Waiting then Resolved else s
  {
    if s.Waiting? then Resolved else s
  }

  function Reject(s: Settlement, reason: string): (t: Settlement)
    ensures t == if s == Waiting then Rejected(reason) else s
  {
    if s.Waiting? then Rejected(reason) else s
  }

  /** A settled promise ignores every later resolve and reject. */
  lemma SettlesOnce(s: Settlement, reason: string)
    requires s != Waiting
    ensures Resolve(s) == s && Reject(s, reason) == s
    ensures Reject(Resolve(Waiting), reason) == Resolved && Resolve(Reject(Waiting, reason)) == Rejected(reason)
  {
  }

  /** `config.timeout || 30000`. */
  function ConnectTimeout(timeout: Option<int>): (ms: int)
    ensures timeout.Some? && timeout.value != 0 ==> ms == timeout.value
    ensures timeout.None? || timeout.value == 0 ==> ms == DefaultConnectTimeoutMs
  {
    if timeout.Some? && timeout.value != 0 then timeout.value else DefaultConnectTimeoutMs
  }

  /** The state a socket is in after `close()`. */
  function AfterClose(s: ReadyState): ReadyState {
    if s == Connecting || s == Open then Closing else s
  }

  class Socket {
    var readyState: ReadyState
    var sent: seq<string>
    var closeCalls: seq<CloseCall>

    constructor (state: ReadyState)
      ensures readyState == state && sent == [] && closeCalls == []
    {
      readyState, sent, closeCalls := state, [], [];
    }

    /** `send(data)`; when it throws, nothing is sent. */
    method Send(data: string, fails: bool)
      modifies this
      ensures sent == if fails then old(sent) else old(sent) + [data]
      ensures readyState == old(readyState) && closeCalls == old(closeCalls)
    {
      if !fails {
        sent := sent + [data];
      }
    }

    /** What `cleanup` does to a socket it referenced (`held`): one plain `close()` when the
        socket was open, nothing otherwise; nothing is sent. */
    twostate predicate ClosedIfOpen(held: bool) reads this {
      && sent == old(sent)
      && if held && old(readyState) == Open
         then closeCalls == old(closeCalls) + [CloseCall(None, None)] && readyState == Closing
         else closeCalls == old(closeCalls) && readyState == old(readyState)
    }

    method Close(code: Option<int>, reason: Option<string>)
      modifies this
      ensures closeCalls == old(closeCalls) + [CloseCall(code, reason)]
      ensures readyState == AfterClose(old(readyState)) && sent == old(sent)
    {
      closeCalls := closeCalls + [CloseCall(code, reason)];
      readyState := AfterClose(readyState);
    }
  }

  class WSBridge {
    const targetWssUrl: string
    const sessionId: string
    const timeout: Option<int>
    /** The socket handed to `connect`, and the one `connect` opened towards the browser; their
        handlers stay attached after `cleanup` drops the references below. */
    var client: Socket?
    var target: Socket?
    /** `clientWs` and `targetWs`. */
    var clientWs: Socket?
    var targetWs: Socket?
    var isConnected: bool
    /** setupBridge has attached the forwarding and close handlers. */
    var bridged: bool
    /** The pending connect timer, if armed and not cleared. */
    var timer: Option<int>
    var settlement: Settlement

    ghost predicate Valid() reads this {
      && (clientWs != null ==> clientWs == client)
      && (targetWs != null ==> targetWs == target)
      && (client != null && target != null ==> client != target)
      && (bridged ==> client != null && target != null)
    }

    constructor (targetWssUrl: string, sessionId: string, timeout: Option<int>)
      ensures Valid()
      ensures this.targetWssUrl == targetWssUrl && this.sessionId == sessionId && this.timeout == timeout
      ensures client == null && target == null && clientWs == null && targetWs == null
      ensures !isConnected && !bridged && timer == None && settlement == NoPromise
    {
      this.targetWssUrl, this.sessionId, this.timeout := targetWssUrl, sessionId, timeout;
      client, target, clientWs, targetWs := null, null, null, null;
      isConnected, bridged, timer, settlement := false, false, None, NoPromise;
    }

    /** cleanup: close each referenced socket that is open, drop both references. Once both
        references are gone it changes nothing but `isConnected`, so a second call is a no-op. */
    method Cleanup()
      requires Valid()
      modifies this, client, target
      ensures Valid() && clientWs == null && targetWs == null && !isConnected
      ensures client == old(client) && target == old(target) && bridged == old(bridged)
      ensures timer == old(timer) && settlement == old(settlement)
      ensures client != null ==> client.ClosedIfOpen(old(clientWs) != null)
      ensures target != null ==> target.ClosedIfOpen(old(targetWs) != null)
    {
      isConnected := false;
      if clientWs != null {
        if clientWs.readyState == Open {
          clientWs.Close(None, None);
        }
        clientWs := null;
      }
      if targetWs != null {
        if targetWs.readyState == Open {
          targetWs.Close(None, None);
        }
        targetWs := null;
      }
    }

    /** Calling cleanup twice leaves the same state as calling it once. */
    method CleanupTwice()
      requires Valid()
      modifies this, client, target
      ensures Valid() && clientWs == null && targetWs == null && !isConnected
      ensures client == old(client) && target == old(target) && bridged == old(bridged)
      ensures timer == old(timer) && settlement == old(settlement)
      ensures client != null ==> client.ClosedIfOpen(old(clientWs) != null)
      ensures target != null ==> target.ClosedIfOpen(old(targetWs) != null)
    {
      Cleanup();
      Cleanup();
    }

    /** connect: remember the client, arm the timer, open the socket towards the browser. When
        the socket cannot even be constructed (`constructError`), the timer is cleared and the
        promise rejects with that error. */
    method Connect(clientSocket: Socket, constructError: Option<string>)
      requires Valid() && client == null && target == null && settlement == NoPromise
      modifies this
      ensures Valid() && client == clientSocket && clientWs == clientSocket
      ensures isConnected == old(isConnected) && bridged == old(bridged)
      ensures constructError.None? ==> && target != null && fresh(target) && targetWs == target
                                       && target.readyState == Connecting && target.sent == [] && target.closeCalls == []
                                       && timer == Some(ConnectTimeout(timeout)) && settlement == Waiting
      ensures constructError.Some? ==> && target == null && targetWs == null
                                       && timer == None && settlement == Rejected(constructError.value)
    {
      client, clientWs := clientSocket, clientSocket;
      timer := Some(ConnectTimeout(timeout));
      settlement := Waiting;
      if constructError.Some? {
        timer := None;
        settlement := Reject(settlement, constructError.value);
        return;
      }
      target := new Socket(Connecting);
      targetWs := target;
    }

    /** The browser socket opened: clear the timer, mark connected, attach the forwarding
        handlers when both references are still held, resolve. */
    method TargetOpened()
      requires Valid() && target != null && target.readyState == Connecting
      modifies this, target
      ensures Valid() && target == old(target) && client == old(client)
      ensures target.readyState == Open && target.sent == old(target.sent) && target.closeCalls == old(target.closeCalls)
      ensures clientWs == old(clientWs) && targetWs == old(targetWs)
      ensures isConnected && timer == None && settlement == Resolve(old(settlement))
      ensures bridged == (old(bridged) || (clientWs != null && targetWs != null))
    {
      target.readyState := Open;
      timer := None;
      isConnected := true;
      if clientWs != null && targetWs != null {
        bridged := true;
      }
      settlement := Resolve(settlement);
    }

    /** The browser socket reported an error: clear the timer and reject. */
    method TargetErrored()
      requires Valid() && target != null
      modifies this
      ensures Valid() && timer == None && settlement == Reject(old(settlement), TargetFailedMessage)
      ensures client == old(client) && target == old(target) && clientWs == old(clientWs) && targetWs == old(targetWs)
      ensures isConnected == old(isConnected) && bridged == old(bridged)
    {
      timer := None;
      settlement := Reject(settlement, TargetFailedMessage);
    }

    /** The browser socket closed: clean up. */
    method TargetClosed()
      requires Valid() && target != null
      modifies this, client, target
      ensures Valid() && clientWs == null && targetWs == null && !isConnected
      ensures target == old(target) && client == old(client) && bridged == old(bridged)
      ensures target.readyState == Closed && target.closeCalls == old(target.closeCalls) && target.sent == old(target.sent)
      ensures client != null ==> client.ClosedIfOpen(old(clientWs) != null)
      ensures timer == old(timer) && settlement == old(settlement)
    {
      target.readyState := Closed;
      Cleanup();
    }

    /** The client socket closed: clean up, but only once the bridge attached its handlers. */
    method ClientClosed()
      requires Valid() && client != null
      modifies this, client, target
      ensures Valid() && client == old(client) && target == old(target)
      ensures client.readyState == Closed && client.closeCalls == old(client.closeCalls) && client.sent == old(client.sent)
      ensures bridged == old(bridged)
      ensures old(bridged) ==> && clientWs == null && targetWs == null && !isConnected
                               && target != null && target.ClosedIfOpen(old(targetWs) != null)
      ensures !old(bridged) ==> clientWs == old(clientWs) && targetWs == old(targetWs) && isConnected == old(isConnected)
      ensures !old(bridged) && target != null ==>
                target.closeCalls == old(target.closeCalls) && target.readyState == old(target.readyState) && target.sent == old(target.sent)
      ensures timer == old(timer) && settlement == old(settlement)
    {
      client.readyState := Closed;
      if bridged {
        Cleanup();
      }
    }

    /** The connect timer fired before it was cleared: clean up, then reject. */
    method TimerFired()
      requires Valid() && timer.Some?
      modifies this, client, target
      ensures Valid() && clientWs == null && targetWs == null && !isConnected && timer == None
      ensures settlement == Reject(old(settlement), TimeoutMessage)
      ensures client == old(client) && target == old(target) && bridged == old(bridged)
      ensures client != null ==> client.ClosedIfOpen(old(clientWs) != null)
      ensures target != null ==> target.ClosedIfOpen(old(targetWs) != null)
    {
      timer := None;
      Cleanup();
      settlement := Reject(settlement, TimeoutMessage);
    }

    /** A frame arrived from the client: it goes to the browser unchanged exactly when the
        forwarding handler is attached and the browser reference is held and open; a throwing
        send is swallowed. */
    method FrameFromClient(data: string, sendFails: bool)
      requires Valid()
      modifies target
      ensures Valid()
      ensures target != null ==> (target.sent ==
                (if bridged && targetWs != null && old(target.readyState) == Open && !sendFails
                 then old(target.sent) + [data] else old(target.sent)))
      ensures target != null ==> target.readyState == old(target.readyState) && target.closeCalls == old(target.closeCalls)
    {
      if bridged && targetWs != null && targetWs.readyState == Open {
        targetWs.Send(data, sendFails);
      }
    }

    /** A frame arrived from the browser: the mirror image of FrameFromClient. */
    method FrameFromTarget(data: string, sendFails: bool)
      requires Valid()
      modifies client
      ensures Valid()
      ensures client != null ==> (client.sent ==
                (if bridged && clientWs != null && old(client.readyState) == Open && !sendFails
                 then old(client.sent) + [data] else old(client.sent)))
      ensures client != null ==> client.readyState == old(client.readyState) && client.closeCalls == old(client.closeCalls)
    {
      if bridged && clientWs != null && clientWs.readyState == Open {
        clientWs.Send(data, sendFails);
      }
    }
  }

  /** The upgrade handler's decision; `HandlerThrew` is a rejected handler promise. */
  datatype UpgradeReply =
    | Refused(status: int, text: string)
    | Upgraded(targetWssUrl: string, sessionId: string, timeoutMs: int)
    | HandlerThrew(cause: string)

  /** The reply and the session ids looked up on the way. */
  datatype Handled = Handled(reply: UpgradeReply, lookups: seq<string>)

  /** createHandler's request handler: `sessionParam` is the `sessionId` query parameter,
      `lookup` the address resolver it was given (an `Err` when its promise rejects), and
      `upgradeError` what `Deno.upgradeWebSocket` throws for this request, if anything. */
  function HandleUpgrade(sessionParam: Option<string>, lookup: string -> Result<Option<string>, string>,
                         upgradeError: Option<string>): (h: Handled)
    ensures !Http.Truthy(sessionParam) ==> h == Handled(Refused(400, MissingSessionText), [])
    ensures Http.Truthy(sessionParam) ==> h.lookups == [sessionParam.value]
    ensures Http.Truthy(sessionParam) && lookup(sessionParam.value).Err? ==>
              h.reply == HandlerThrew(lookup(sessionParam.value).error)
    ensures Http.Truthy(sessionParam) && lookup(sessionParam.value).Ok? && !Http.Truthy(lookup(sessionParam.value).value) ==>
              h.reply == Refused(404, UnknownSessionText)
    ensures Http.Truthy(sessionParam) && lookup(sessionParam.value).Ok? && Http.Truthy(lookup(sessionParam.value).value) ==>
              h.reply == if upgradeError.Some? then HandlerThrew(upgradeError.value)
                         else Upgraded(lookup(sessionParam.value).value.value, sessionParam.value, HandlerTimeoutMs)
  {
    if !Http.Truthy(sessionParam) then Handled(Refused(400, MissingSessionText), [])
    else
      var sid := sessionParam.value;
      var found := lookup(sid);
      if found.Err? then Handled(HandlerThrew(found.error), [sid])
      else if !Http.Truthy(found.value) then Handled(Refused(404, UnknownSessionText), [sid])
      else if upgradeError.Some? then Handled(HandlerThrew(upgradeError.value), [sid])
      else Handled(Upgraded(found.value.value, sid, HandlerTimeoutMs), [sid])
  }

  /** An upgrade happens exactly when a session id is given, the resolver answers an address and
      the request can be upgraded, and it uses that address; a 404 only ever follows one
      successful lookup that found nothing; the handler's bridge waits `HandlerTimeoutMs`. */
  lemma HandlerGating(sessionParam: Option<string>, lookup: string -> Result<Option<string>, string>,
                      upgradeError: Option<string>)
    ensures var h := HandleUpgrade(sessionParam, lookup, upgradeError);
            && (h.reply.Upgraded? <==>
                  Http.Truthy(sessionParam) && lookup(sessionParam.value).Ok? && Http.Truthy(lookup(sessionParam.value).value)
                  && upgradeError.None?)
            && (h.reply.Upgraded? ==> h.reply.targetWssUrl == lookup(sessionParam.value).value.value)
            && (h.reply == Refused(404, UnknownSessionText) <==>
                  Http.Truthy(sessionParam) && lookup(sessionParam.value).Ok? && !Http.Truthy(lookup(sessionParam.value).value))
            && (h.reply.Refused? && h.reply.status == 400 <==> |h.lookups| == 0)
            && (h.reply.Refused? ==> h.reply.status == 400 || h.reply.status == 404)
            && (h.reply.Upgraded? ==> ConnectTimeout(Some(h.reply.timeoutMs)) == HandlerTimeoutMs)
  {
  }

  /** The bridge for an upgraded request. */
  method NewBridge(reply: UpgradeReply) returns (b: WSBridge)
    requires reply.Upgraded?
    ensures fresh(b) && b.Valid()
    ensures b.targetWssUrl == reply.targetWssUrl && b.sessionId == reply.sessionId && b.timeout == Some(reply.timeoutMs)
    ensures b.client == null && b.target == null && b.settlement == NoPromise
  {
    b := new WSBridge(reply.targetWssUrl, reply.sessionId, Some(reply.timeoutMs));
  }

  /** The client socket's open handler after `connect` settled: a rejected connect closes the
      client with 1011. */
  method AfterConnect(b: WSBridge, socket: Socket)
    modifies socket
    ensures socket.closeCalls == old(socket.closeCalls) +
              (if b.settlement.Rejected? then [CloseCall(Some(BridgeFailedCode), Some(BridgeFailedReason))] else [])
    ensures socket.sent == old(socket.sent)
  {
    if b.settlement.Rejected? {
      socket.Close(Some(BridgeFailedCode), Some(BridgeFailedReason));
    }
  }
}
