/** The shared state of the Rust app, RustApp/src-tauri/src/lib.rs: the
    `AppState` behind the mutex, changed by the Tauri commands, and the
    edge that leads to the remote screens, which `set_screen_layout`
    validates before storing. Locking is not modelled: a poisoned mutex
    (the `map_err` paths) never occurs here. */
module RustAppState {
  import opened Common

  datatype ComputerInfo = ComputerInfo(
    name: string,
    ip: string,
    position: string,
    isConnected: bool,
    screenWidth: int,
    screenHeight: int)

  datatype RemoteScreenInfo = RemoteScreenInfo(
    computerName: string,
    computerType: string,
    name: string,
    x: int,
    y: int,
    width: int,
    height: int,
    isPrimary: bool)

  /** `Result<(), String>`. */
  datatype Outcome = Ok | Err(message: string)

  /** The entry `add_computer` creates: not connected, 1920x1080. */
  function NewComputer(name: string, ip: string, position: string): ComputerInfo {
    ComputerInfo(name, ip, position, false, 1920, 1080)
  }

  /** `computers.retain(|c| c.ip != ip)`. */
  function Retain(cs: seq<ComputerInfo>, ip: string): (r: seq<ComputerInfo>)
    ensures |r| <= |cs|
    ensures forall k :: 0 <= k < |r| ==> r[k].ip != ip
    ensures forall k :: 0 <= k < |r| ==> r[k] in cs
  {
    if cs == [] then []
    else (if cs[0].ip != ip then [cs[0]] else []) + Retain(cs[1..], ip)
  }

  /** Keeping works piece by piece, so the kept entries stay in their order. */
  lemma {:induction false} RetainAppend(a: seq<ComputerInfo>, b: seq<ComputerInfo>, ip: string)
    ensures Retain(a + b, ip) == Retain(a, ip) + Retain(b, ip)
    decreases |a|
  {
    if a == [] {
      assert a + b == b;
    } else {
      assert (a + b)[0] == a[0];
      assert (a + b)[1..] == a[1..] + b;
      RetainAppend(a[1..], b, ip);
    }
  }

  /** Every entry with another ip survives. */
  lemma {:induction false} RetainKeepsOthers(cs: seq<ComputerInfo>, ip: string, c: ComputerInfo)
    requires c in cs && c.ip != ip
    ensures c in Retain(cs, ip)
    decreases |cs|
  {
    if cs[0] != c {
      assert c in cs[1..];
      RetainKeepsOthers(cs[1..], ip, c);
    }
  }

  /** Removing an ip nobody has changes nothing. */
  lemma {:induction false} RetainAbsent(cs: seq<ComputerInfo>, ip: string)
    requires forall k :: 0 <= k < |cs| ==> cs[k].ip != ip
    ensures Retain(cs, ip) == cs
    decreases |cs|
  {
    if cs != [] {
      RetainAbsent(cs[1..], ip);
      assert cs == [cs[0]] + cs[1..];
    }
  }

  /** The edges `set_screen_layout` accepts. */
  predicate ValidEdge(edge: string) {
    edge in ["right", "left", "top", "bottom"]
  }

  function InvalidEdge(edge: string): string {
    "Invalid edge: " + edge + ". Must be one of: [\"right\", \"left\", \"top\", \"bottom\"]"
  }

  /** `set_screen_layout(edge)` on the stored edge `current`: the stored
      edge afterwards and the result. */
  function SetLayout(current: string, edge: string): (r: (string, Outcome))
    ensures r.1 == Ok <==> ValidEdge(edge)
    ensures r.1.Err? ==> r.0 == current && r.1.message == InvalidEdge(edge)
    ensures r.1 == Ok ==> r.0 == edge
  {
    if !ValidEdge(edge) then (current, Err(InvalidEdge(edge))) else (edge, Ok)
  }

  /** The stored edge after a series of `set_screen_layout` calls. */
  function AfterLayouts(current: string, edges: seq<string>): string
    decreases |edges|
  {
    if edges == [] then current
    else AfterLayouts(SetLayout(current, edges[0]).0, edges[1..])
  }

  /** No edge after position `k` is valid. */
  predicate LastValid(edges: seq<string>, k: nat) {
    forall j :: k < j < |edges| ==> !ValidEdge(edges[j])
  }

  /** `get_screen_layout` returns the last edge that was accepted, or the
      one before the calls if none was. */
  lemma {:induction false} LastAcceptedEdge(current: string, edges: seq<string>)
    ensures var r := AfterLayouts(current, edges);
      (forall k :: 0 <= k < |edges| ==> !ValidEdge(edges[k])) ==> r == current
    ensures forall k :: 0 <= k < |edges| && ValidEdge(edges[k]) && LastValid(edges, k) ==>
      AfterLayouts(current, edges) == edges[k]
    ensures ValidEdge(current) ==> ValidEdge(AfterLayouts(current, edges))
    decreases |edges|
  {
    if edges != [] {
      var next := SetLayout(current, edges[0]).0;
      LastAcceptedEdge(next, edges[1..]);
      forall k | 0 <= k < |edges| && ValidEdge(edges[k]) && LastValid(edges, k)
        ensures AfterLayouts(current, edges) == edges[k]
      {
        if k > 0 {
          assert edges[1..][k - 1] == edges[k];
          assert forall j :: k - 1 < j < |edges[1..]| ==> edges[1..][j] == edges[j + 1];
          assert LastValid(edges[1..], k - 1);
        } else {
          assert forall j :: 0 <= j < |edges[1..]| ==> edges[1..][j] == edges[j + 1];
        }
      }
      if forall k :: 0 <= k < |edges| ==> !ValidEdge(edges[k]) {
        assert forall j :: 0 <= j < |edges[1..]| ==> edges[1..][j] == edges[j + 1];
      }
    }
  }

  /** `retain` walks the list once and keeps what passes the test. */
  method RetainLoop(cs: seq<ComputerInfo>, ip: string) returns (kept: seq<ComputerInfo>)
    ensures kept == Retain(cs, ip)
  {
    kept := [];
    var i := 0;
    while i < |cs|
      invariant 0 <= i <= |cs|
      invariant kept == Retain(cs[..i], ip)
    {
      RetainAppend(cs[..i], [cs[i]], ip);
      assert cs[..i + 1] == cs[..i] + [cs[i]];
      if cs[i].ip != ip {
        kept := kept + [cs[i]];
      }
      i := i + 1;
    }
    assert cs[..i] == cs;
  }

  // -----------------------------------------------------------------------
  // The objects

  /** `network::REMOTE_EDGE`, the global behind the layout commands; its
      initial value lives outside lib.rs and is a parameter here. */
  class Layout {
    var remoteEdge: string

    constructor(initial: string)
      ensures remoteEdge == initial
    {
      remoteEdge := initial;
    }

    method SetScreenLayout(edge: string) returns (r: Outcome)
      modifies this
      ensures (remoteEdge, r) == SetLayout(old(remoteEdge), edge)
    {
      var validEdges := ["right", "left", "top", "bottom"];
      if edge !in validEdges {
        return Err(InvalidEdge(edge));
      }
      remoteEdge := edge;
      r := Ok;
    }

    function GetScreenLayout(): string
      reads this
    {
      remoteEdge
    }
  }

  class AppState {
    var isServer: bool
    var isConnected: bool
    var activeComputer: Option<string>
    var computers: seq<ComputerInfo>
    var localIp: string
    var clipboardSyncEnabled: bool
    var remoteScreens: seq<RemoteScreenInfo>

    /** The state `run()` creates. */
    constructor(localIp: string)
      ensures !isServer && !isConnected && activeComputer.None? && computers == []
      ensures this.localIp == localIp && clipboardSyncEnabled && remoteScreens == []
    {
      isServer, isConnected, activeComputer := false, false, None;
      computers := [];
      this.localIp := localIp;
      clipboardSyncEnabled := true;
      remoteScreens := [];
    }

    method AddComputer(name: string, ip: string, position: string)
      modifies this
      ensures computers == old(computers) + [NewComputer(name, ip, position)]
      ensures isServer == old(isServer) && isConnected == old(isConnected) && activeComputer == old(activeComputer)
      ensures clipboardSyncEnabled == old(clipboardSyncEnabled) && remoteScreens == old(remoteScreens)
      ensures localIp == old(localIp)
    {
      computers := computers + [NewComputer(name, ip, position)];
    }

    method RemoveComputer(ip: string)
      modifies this
      ensures computers == Retain(old(computers), ip)
      ensures isServer == old(isServer) && isConnected == old(isConnected) && activeComputer == old(activeComputer)
      ensures clipboardSyncEnabled == old(clipboardSyncEnabled) && remoteScreens == old(remoteScreens)
      ensures localIp == old(localIp)
    {
      computers := RetainLoop(computers, ip);
    }

    function GetComputers(): seq<ComputerInfo>
      reads this
    {
      computers
    }

    method SetClipboardSync(enabled: bool)
      modifies this
      ensures clipboardSyncEnabled == enabled
      ensures isServer == old(isServer) && isConnected == old(isConnected) && activeComputer == old(activeComputer)
      ensures computers == old(computers) && remoteScreens == old(remoteScreens) && localIp == old(localIp)
    {
      clipboardSyncEnabled := enabled;
    }

    method SetRemoteScreens(screens: seq<RemoteScreenInfo>)
      modifies this
      ensures remoteScreens == screens
      ensures isServer == old(isServer) && isConnected == old(isConnected) && activeComputer == old(activeComputer)
      ensures computers == old(computers) && clipboardSyncEnabled == old(clipboardSyncEnabled) && localIp == old(localIp)
    {
      remoteScreens := screens;
    }
  }
}
