/**
 * The VM console (go-backend/vmconsole.go): the running gates of the three
 * console endpoints, the VNC port default, the noVNC proxy between a
 * WebSocket and the VNC server, and the special-key table.
 *
 * The proxy's two goroutines are modelled one at a time: each direction is
 * a loop over the inbox its peer delivers, and the proxy's `done` flag and
 * close-once teardown are fields of a class.
 */
module VmConsole {
  import opened Text
  import Vms
  import VmSnapshots

  // ------------------------------------------------------------------ gates

  /** GetVMConsoleInfoHandler's answer. */
  datatype ConsoleInfo =
    | InfoNotFound
    | InfoNotRunning
    | Info(displayType: string, vncPort: int, vncPassword: string, spicePort: int, spicePassword: string,
           websocketUrl: string, token: string)

  function WebSocketUrl(id: int, token: string): (r: string)
    ensures HasPrefix(r, "/api/vms/") && HasSuffix(r, "/console/ws?token=" + token)
  {
    var r := "/api/vms/" + IntToString(id) + "/console/ws?token=" + token;
    assert r == "/api/vms/" + (IntToString(id) + ("/console/ws?token=" + token));
    r
  }

  /**
   * GetVMConsoleInfoHandler: a missing VM is not found, a VM that is not
   * running gets success=false, and only a running one gets its connection
   * details and a fresh token.
   */
  function ConsoleInfoOf(id: int, vm: Option<Vms.Vm>, token: string): (r: ConsoleInfo)
    ensures vm == None <==> r == InfoNotFound
    ensures r.Info? <==> vm.Some? && vm.value.status == "running"
    ensures r.Info? ==> r.vncPort == vm.value.vncPort && r.spicePort == vm.value.spicePort
                        && r.token == token && r.websocketUrl == WebSocketUrl(id, token)
  {
    if vm == None then InfoNotFound
    else if vm.value.status != "running" then InfoNotRunning
    else
      var v := vm.value;
      Info(v.displayType, v.vncPort, v.vncPassword, v.spicePort, v.spicePassword, WebSocketUrl(id, token), token)
  }

  /** The VNC port the proxy dials: the stored one, 5900 when it is 0. */
  function DialPort(vncPort: int): (r: int)
    ensures vncPort != 0 ==> r == vncPort
    ensures vncPort == 0 ==> r == 5900
    ensures r != 0
  {
    if vncPort == 0 then 5900 else vncPort
  }

  /**
   * VMConsoleWebSocketHandler before the upgrade: 404 for a missing VM, 400
   * when it is not running, otherwise the address to dial.
   */
  function ConsoleTarget(vm: Option<Vms.Vm>): (r: Result<string>)
    ensures vm == None ==> r == Err("VM not found")
    ensures vm.Some? && vm.value.status != "running" ==> r == Err("VM is not running")
    ensures vm.Some? && vm.value.status == "running" ==> r == Ok("localhost:" + IntToString(DialPort(vm.value.vncPort)))
  {
    if vm == None then Err("VM not found")
    else if vm.value.status != "running" then Err("VM is not running")
    else Ok("localhost:" + IntToString(DialPort(vm.value.vncPort)))
  }

  /** How the handler ends before proxying: an HTTP error, or the VNC address it is connected to. */
  datatype ConsoleStart = Refused(code: int, message: string) | Connected(address: string)

  /**
   * VMConsoleWebSocketHandler up to the upgrade: a failed connection is
   * 500, then the checks of ConsoleTarget answered 404 and 400, then the
   * dial of the VNC address, whose failure is 500.
   */
  function OpenConsole(dbOk: bool, vm: Option<Vms.Vm>, dialOk: bool): (r: ConsoleStart)
    ensures r.Connected? <==> dbOk && ConsoleTarget(vm).Ok? && dialOk
    ensures r.Connected? ==> r.address == ConsoleTarget(vm).value
    ensures !dbOk ==> r == Refused(500, "Database error")
    ensures dbOk && vm == None ==> r == Refused(404, "VM not found")
    ensures dbOk && vm.Some? && vm.value.status != "running" ==> r == Refused(400, "VM is not running")
    ensures dbOk && ConsoleTarget(vm).Ok? && !dialOk ==> r == Refused(500, "Failed to connect to VM console")
  {
    if !dbOk then Refused(500, "Database error")
    else match ConsoleTarget(vm)
      case Err(e) => if vm == None then Refused(404, e) else Refused(400, e)
      case Ok(address) => if dialOk then Connected(address) else Refused(500, "Failed to connect to VM console")
  }

  // ------------------------------------------------------------------ proxy

  const BinaryMessage := 2

  /** One ReadMessage on the WebSocket: a message (and whether writing it to VNC works) or an error. */
  datatype WsRead = Message(kind: int, data: seq<bv8>, vncWriteOk: bool) | WsReadFailed

  /** One Read on the VNC connection. */
  datatype VncRead = Data(bytes: seq<bv8>, wsWriteOk: bool) | Eof | Timeout | VncReadFailed

  /** What wsToVNC writes to VNC for a run of inbox, and whether it ends by closing the proxy. */
  function WsToVncSpec(inbox: seq<WsRead>): (r: (seq<seq<bv8>>, bool))
    ensures |r.0| <= |inbox|
  {
    if inbox == [] then ([], false)
    else match inbox[0]
      case WsReadFailed => ([], true)
      case Message(kind, data, ok) =>
        if kind != BinaryMessage then WsToVncSpec(inbox[1..])
        else if !ok then ([], true)
        else var rest := WsToVncSpec(inbox[1..]); ([data] + rest.0, rest.1)
  }

  /** The payloads of the binary messages, in order. */
  function BinaryPayloads(inbox: seq<WsRead>): seq<seq<bv8>> {
    if inbox == [] then []
    else if inbox[0].Message? && inbox[0].kind == BinaryMessage then [inbox[0].data] + BinaryPayloads(inbox[1..])
    else BinaryPayloads(inbox[1..])
  }

  /** No read fails and every VNC write succeeds. */
  predicate WsHealthy(inbox: seq<WsRead>) {
    forall i :: 0 <= i < |inbox| ==> inbox[i].Message? && inbox[i].vncWriteOk
  }

  /** Without failures, exactly the binary messages reach VNC, verbatim and in order, and nothing closes. */
  lemma {:induction false} WsForwardsBinaryOnly(inbox: seq<WsRead>)
    requires WsHealthy(inbox)
    ensures WsToVncSpec(inbox) == (BinaryPayloads(inbox), false)
  {
    if inbox != [] {
      assert WsHealthy(inbox[1..]) by {
        forall i | 0 <= i < |inbox[1..]| ensures inbox[1..][i].Message? && inbox[1..][i].vncWriteOk {
          assert inbox[1..][i] == inbox[i + 1];
        }
      }
      WsForwardsBinaryOnly(inbox[1..]);
    }
  }

  /** What vncToWS sends to the WebSocket for a run of inbox, and whether it ends by closing the proxy. */
  function VncToWsSpec(inbox: seq<VncRead>): (r: (seq<seq<bv8>>, bool))
    ensures |r.0| <= |inbox|
    ensures forall i :: 0 <= i < |r.0| ==> r.0[i] != []
  {
    if inbox == [] then ([], false)
    else match inbox[0]
      case Eof => VncToWsSpec(inbox[1..])
      case Timeout => VncToWsSpec(inbox[1..])
      case VncReadFailed => ([], true)
      case Data(bytes, ok) =>
        if bytes == [] then VncToWsSpec(inbox[1..])
        else if !ok then ([], true)
        else var rest := VncToWsSpec(inbox[1..]); ([bytes] + rest.0, rest.1)
  }

  /** The non-empty inbox, in order. */
  function NonEmptyReads(inbox: seq<VncRead>): seq<seq<bv8>> {
    if inbox == [] then []
    else if inbox[0].Data? && inbox[0].bytes != [] then [inbox[0].bytes] + NonEmptyReads(inbox[1..])
    else NonEmptyReads(inbox[1..])
  }

  /** Only end-of-file, timeouts and inbox whose forwarding succeeds. */
  predicate VncHealthy(inbox: seq<VncRead>) {
    forall i :: 0 <= i < |inbox| ==> !inbox[i].VncReadFailed? && (inbox[i].Data? ==> inbox[i].wsWriteOk)
  }

  /**
   * EOF and timeouts are retried, so without failures each non-empty read
   * becomes exactly one message and nothing closes.
   */
  lemma {:induction false} VncOneMessagePerRead(inbox: seq<VncRead>)
    requires VncHealthy(inbox)
    ensures VncToWsSpec(inbox) == (NonEmptyReads(inbox), false)
  {
    if inbox != [] {
      assert VncHealthy(inbox[1..]) by {
        forall i | 0 <= i < |inbox[1..]|
          ensures !inbox[1..][i].VncReadFailed? && (inbox[1..][i].Data? ==> inbox[1..][i].wsWriteOk)
        {
          assert inbox[1..][i] == inbox[i + 1];
        }
      }
      VncOneMessagePerRead(inbox[1..]);
    }
  }

  /** VNCWebSocketProxy: the done flag, the close-once teardown and what each side received. */
  class VncProxy {
    var done: bool
    var wsOpen: bool
    var vncOpen: bool
    /** How many times the teardown ran. */
    var teardowns: nat
    /** Data written to the VNC server, one entry per Write. */
    var toVnc: seq<seq<bv8>>
    /** Binary messages written to the WebSocket. */
    var toWs: seq<seq<bv8>>

    /** Teardown has run iff done is set, and then both connections are closed. */
    ghost predicate Valid()
      reads this
    {
      (done <==> teardowns == 1) && teardowns <= 1 && (done ==> !wsOpen && !vncOpen)
    }

    constructor ()
      ensures Valid() && !done && wsOpen && vncOpen && toVnc == [] && toWs == []
    {
      done, wsOpen, vncOpen, teardowns := false, true, true, 0;
      toVnc, toWs := [], [];
    }

    /** close(): the first call closes done, the WebSocket and the VNC connection; later calls do nothing. */
    method Close()
      requires Valid()
      modifies this`done, this`wsOpen, this`vncOpen, this`teardowns
      ensures Valid() && done && !wsOpen && !vncOpen
      ensures teardowns == 1
      ensures old(done) ==> teardowns == old(teardowns) && wsOpen == old(wsOpen) && vncOpen == old(vncOpen)
    {
      if !done {
        done := true;
        wsOpen := false;
        vncOpen := false;
        teardowns := teardowns + 1;
      }
    }

    /** wsToVNC over the inbox the WebSocket delivers, stopping at done or at the first failure. */
    method WsToVnc(inbox: seq<WsRead>)
      requires Valid()
      modifies this`done, this`wsOpen, this`vncOpen, this`teardowns, this`toVnc
      ensures Valid()
      ensures old(done) ==> toVnc == old(toVnc) && teardowns == old(teardowns)
      ensures !old(done) ==> toVnc == old(toVnc) + WsToVncSpec(inbox).0 && done == WsToVncSpec(inbox).1
    {
      if done {
        return;
      }
      var i := 0;
      ghost var sent: seq<seq<bv8>> := [];
      assert inbox[0..] == inbox;
      assert [] + WsToVncSpec(inbox).0 == WsToVncSpec(inbox).0;
      while i < |inbox|
        invariant 0 <= i <= |inbox| && Valid() && !done
        invariant toVnc == old(toVnc) + sent
        invariant WsToVncSpec(inbox) == (sent + WsToVncSpec(inbox[i..]).0, WsToVncSpec(inbox[i..]).1)
      {
        SliceCons(inbox, i);
        match inbox[i] {
          case WsReadFailed =>
            Close();
            return;
          case Message(kind, data, ok) =>
            if kind == BinaryMessage {
              if !ok {
                Close();
                return;
              }
              AppendAssoc(sent, [data], WsToVncSpec(inbox[i + 1..]).0);
              AppendAssoc(old(toVnc), sent, [data]);
              toVnc := toVnc + [data];
              sent := sent + [data];
            }
        }
        i := i + 1;
      }
    }

    /** vncToWS over the inbox the VNC server delivers, stopping at done or at the first real failure. */
    method VncToWs(inbox: seq<VncRead>)
      requires Valid()
      modifies this`done, this`wsOpen, this`vncOpen, this`teardowns, this`toWs
      ensures Valid()
      ensures old(done) ==> toWs == old(toWs) && teardowns == old(teardowns)
      ensures !old(done) ==> toWs == old(toWs) + VncToWsSpec(inbox).0 && done == VncToWsSpec(inbox).1
    {
      if done {
        return;
      }
      var i := 0;
      ghost var sent: seq<seq<bv8>> := [];
      assert inbox[0..] == inbox;
      assert [] + VncToWsSpec(inbox).0 == VncToWsSpec(inbox).0;
      while i < |inbox|
        invariant 0 <= i <= |inbox| && Valid() && !done
        invariant toWs == old(toWs) + sent
        invariant VncToWsSpec(inbox) == (sent + VncToWsSpec(inbox[i..]).0, VncToWsSpec(inbox[i..]).1)
      {
        SliceCons(inbox, i);
        match inbox[i] {
          case Eof =>
          case Timeout =>
          case VncReadFailed =>
            Close();
            return;
          case Data(bytes, ok) =>
            if |bytes| > 0 {
              if !ok {
                Close();
                return;
              }
              AppendAssoc(sent, [bytes], VncToWsSpec(inbox[i + 1..]).0);
              AppendAssoc(old(toWs), sent, [bytes]);
              toWs := toWs + [bytes];
              sent := sent + [bytes];
            }
        }
        i := i + 1;
      }
    }
  }

  /** Closing twice tears down once. */
  method CloseTwice(p: VncProxy)
    requires p.Valid() && !p.done
    modifies p
    ensures p.Valid() && p.teardowns == 1 && p.done
  {
    p.Close();
    p.Close();
  }

  // ------------------------------------------------------------------ special keys

  /** The qcode SendVMConsoleKeyHandler presses with ctrl and alt, for the four accepted combinations. */
  function KeyQcode(key: string): (r: Option<string>)
    ensures r.Some? <==> key == "ctrl-alt-del" || key == "ctrl-alt-f1" || key == "ctrl-alt-f2" || key == "ctrl-alt-f7"
    ensures r.Some? ==> key == "ctrl-alt-" + (if r.value == "delete" then "del" else r.value)
  {
    if key == "ctrl-alt-del" then Some("delete")
    else if key == "ctrl-alt-f1" then Some("f1")
    else if key == "ctrl-alt-f2" then Some("f2")
    else if key == "ctrl-alt-f7" then Some("f7")
    else None
  }

  /** The send-key command pressing ctrl, alt and the qcode together. */
  function SendKeyCommand(qcode: string): string {
    "{\"execute\": \"send-key\", \"arguments\": {\"keys\": [{\"type\": \"qcode\", \"data\": \"ctrl\"}, "
    + "{\"type\": \"qcode\", \"data\": \"alt\"}, {\"type\": \"qcode\", \"data\": \"" + qcode + "\"}]}}"
  }

  /**
   * SendVMConsoleKeyHandler: 400 for a body that does not decode, 404 for a
   * missing VM, 400 for a VM not running or an unknown key, all before any
   * QMP call; otherwise the key goes to sendQMPCommand (which this handler
   * calls directly, without the empty-socket check of the snapshot helpers)
   * and its error, if any, is reported with status 200 and success=false.
   */
  function SendKey(vm: Option<Vms.Vm>, key: Option<string>, run: VmSnapshots.Exec)
    : (r: (Reply, Option<VmSnapshots.ToolCall>))
    ensures key == None ==> r == (Reply(400, "Invalid request"), None)
    ensures key.Some? && vm == None ==> r == (Reply(404, "VM not found"), None)
    ensures key.Some? && vm.Some? && vm.value.status != "running" ==> r == (Reply(400, "VM is not running"), None)
    ensures r.1.Some? <==> key.Some? && vm.Some? && vm.value.status == "running" && KeyQcode(key.value).Some?
    ensures r.1.Some? ==>
              r.1.value == VmSnapshots.Bash(VmSnapshots.SocatScript(vm.value.qmpSocketPath,
                                                                    SendKeyCommand(KeyQcode(key.value).value)))
              && r.0.code == 200 && (r.0.error == "" <==> VmSnapshots.QmpVerdict(run) == None)
  {
    if key == None then (Reply(400, "Invalid request"), None)
    else if vm == None then (Reply(404, "VM not found"), None)
    else if vm.value.status != "running" then (Reply(400, "VM is not running"), None)
    else match KeyQcode(key.value)
      case None => (Reply(400, "Unknown key combination"), None)
      case Some(q) =>
        var call := VmSnapshots.Bash(VmSnapshots.SocatScript(vm.value.qmpSocketPath, SendKeyCommand(q)));
        match VmSnapshots.QmpVerdict(run)
        case None => (OK, Some(call))
        case Some(e) => (Reply(200, if e == "" then "QMP error" else e), Some(call))
  }
}
