/** Connection settings: one backend's in flat fields, everybody's in a map. */
module SettingsStore {
  import opened Text

  datatype Kind = Hermes | OpenCode | MiMoCode | Codex | ClaudeCode | Pi | OpenClaw | XueXiaoMi

  const ALL_KINDS := [Hermes, OpenCode, MiMoCode, Codex, ClaudeCode, Pi, OpenClaw, XueXiaoMi]
  const DEFAULT_HOST := "127.0.0.1"

  function KindId(kind: Kind): string {
    match kind
    case Hermes => "hermes"
    case OpenCode => "opencode"
    case MiMoCode => "mimocode"
    case Codex => "codex"
    case ClaudeCode => "claudecode"
    case Pi => "pi"
    case OpenClaw => "openclaw"
    case XueXiaoMi => "xuexiaomi"
  }

  function DefaultPort(kind: Kind): nat {
    match kind
    case Hermes => 9119
    case OpenCode => 4096
    case MiMoCode => 4096
    case OpenClaw => 18789
    case XueXiaoMi => 443
    case Codex => 0
    case ClaudeCode => 0
    case Pi => 0
  }

  datatype Connection = Connection(host: string, port: nat, useTls: bool, credential: string, enabled: Option<bool>)

  const NO_CONNECTION := Connection("", 0, false, "", None)

  type Connections = map<string, Connection>

  datatype Settings = Settings(
    kind: Kind, token: string, autoConnect: bool,
    host: string, port: nat, useTls: bool,
    perBackend: Connections)

  function ScopedIn(connections: Connections, kind: Kind): Connection {
    if KindId(kind) in connections then connections[KindId(kind)] else NO_CONNECTION
  }

  function Scoped(s: Settings, kind: Kind): Connection {
    ScopedIn(s.perBackend, kind)
  }

  function HostOr(host: string, other: string): string {
    if host == "" then other else host
  }

  function PortOr(port: nat, other: nat): nat {
    if port == 0 then other else port
  }

  // ----- what each call makes of the settings

  function Synced(s: Settings): Settings {
    s.(perBackend := s.perBackend[KindId(s.kind) :=
      Connection(s.host, s.port, s.useTls, Trim(s.token), Scoped(s, s.kind).enabled)])
  }

  function WithoutSwitch(connections: Connections, kind: Kind): Connections {
    if KindId(kind) in connections
    then connections[KindId(kind) := connections[KindId(kind)].(enabled := Some(false))] else connections
  }

  /** The switches of these kinds but `kept` go off, where there is a record. */
  function SwitchedOff(connections: Connections, kept: Kind, kinds: seq<Kind>): Connections {
    if kinds == [] then connections
    else
      var off, other := SwitchedOff(connections, kept, kinds[..|kinds| - 1]), kinds[|kinds| - 1];
      if other != kept then WithoutSwitch(off, other) else off
  }

  function WithSwitch(connections: Connections, kind: Kind, enabled: bool): Connections {
    connections[KindId(kind) := ScopedIn(connections, kind).(enabled := Some(enabled))]
  }

  function Switched(s: Settings, kind: Kind, enabled: bool): Settings {
    var synced := Synced(s);
    synced.(perBackend := WithSwitch(
      if enabled then SwitchedOff(synced.perBackend, kind, ALL_KINDS) else synced.perBackend, kind, enabled))
  }

  function BackendSwitched(s: Settings, next: Kind): Settings {
    var synced := Synced(s);
    var scoped := Scoped(synced, next);
    synced.(kind := next, host := HostOr(scoped.host, DEFAULT_HOST), port := PortOr(scoped.port, DefaultPort(next)),
            useTls := scoped.useTls, token := scoped.credential)
  }

  function ScopedApplied(s: Settings): Settings {
    var scoped := Scoped(s, s.kind);
    s.(host := HostOr(s.host, HostOr(scoped.host, DEFAULT_HOST)),
       port := PortOr(s.port, PortOr(scoped.port, DefaultPort(s.kind))),
       token := if scoped.credential != "" then scoped.credential else s.token)
  }

  predicate HasSwitches(s: Settings) {
    exists id :: id in s.perBackend && s.perBackend[id].enabled.Some?
  }

  function GivenSwitches(connections: Connections, active: Kind, wasOn: bool, kinds: seq<Kind>): Connections {
    if kinds == [] then connections
    else
      var rest, last := kinds[..|kinds| - 1], kinds[|kinds| - 1];
      WithSwitch(GivenSwitches(connections, active, wasOn, rest), last, last == active && wasOn)
  }

  function Migrated(s: Settings): Settings {
    if HasSwitches(s) then s
    else
      var synced := Synced(s);
      synced.(perBackend := GivenSwitches(synced.perBackend, s.kind, s.autoConnect, ALL_KINDS))
  }

  /** The file: the flat credential and the old global switch are not in it. */
  function Saved(s: Settings): Settings {
    Synced(s).(token := "", autoConnect := true)
  }

  function Loaded(file: Settings): Settings {
    Migrated(ScopedApplied(file))
  }

  predicate IsOn(s: Settings, kind: Kind) {
    Scoped(s, kind).enabled == Some(true)
  }

  method SwitchOffOthers(connections: Connections, kept: Kind, kinds: seq<Kind>) returns (off: Connections)
    ensures off == SwitchedOff(connections, kept, kinds)
  {
    off := connections;
    for i := 0 to |kinds|
      invariant off == SwitchedOff(connections, kept, kinds[..i])
    {
      assert kinds[..i + 1][..i] == kinds[..i];
      if kinds[i] != kept {
        off := WithoutSwitch(off, kinds[i]);
      }
    }
    assert kinds[..|kinds|] == kinds;
  }

  method GiveSwitches(connections: Connections, active: Kind, wasOn: bool, kinds: seq<Kind>)
    returns (given: Connections)
    ensures given == GivenSwitches(connections, active, wasOn, kinds)
  {
    given := connections;
    for i := 0 to |kinds|
      invariant given == GivenSwitches(connections, active, wasOn, kinds[..i])
    {
      assert kinds[..i + 1][..i] == kinds[..i];
      given := WithSwitch(given, kinds[i], kinds[i] == active && wasOn);
    }
    assert kinds[..|kinds|] == kinds;
  }

  class Store {
    var kind: Kind
    var token: string
    var autoConnect: bool
    var host: string
    var port: nat
    var useTls: bool
    var perBackend: Connections

    ghost function Snapshot(): Settings
      reads this
    {
      Settings(kind, token, autoConnect, host, port, useTls, perBackend)
    }

    constructor ()
      ensures Snapshot() == Settings(Hermes, "", true, DEFAULT_HOST, 9119, false, map[])
    {
      kind, token, autoConnect := Hermes, "", true;
      host, port, useTls := DEFAULT_HOST, 9119, false;
      perBackend := map[];
    }

    method SyncActiveConnection()
      modifies this`perBackend
      ensures Snapshot() == Synced(old(Snapshot()))
    {
      var enabled := ScopedIn(perBackend, kind).enabled;
      perBackend := perBackend[KindId(kind) := Connection(host, port, useTls, Trim(token), enabled)];
    }

    method SetBackendEnabled(which: Kind, enabled: bool)
      modifies this`perBackend
      ensures Snapshot() == Switched(old(Snapshot()), which, enabled)
    {
      SyncActiveConnection();
      var connections := perBackend;
      if enabled {
        connections := SwitchOffOthers(connections, which, ALL_KINDS);
      }
      perBackend := WithSwitch(connections, which, enabled);
    }

    method SwitchBackend(next: Kind)
      modifies this
      ensures Snapshot() == BackendSwitched(old(Snapshot()), next)
    {
      SyncActiveConnection();
      token := "";
      kind := next;
      var scoped := ScopedIn(perBackend, next);
      host := if scoped.host == "" then DEFAULT_HOST else scoped.host;
      port := if scoped.port > 0 then scoped.port else DefaultPort(next);
      useTls := scoped.useTls;
      token := scoped.credential;
    }

    method ApplyScopedConnection()
      modifies this
      ensures Snapshot() == ScopedApplied(old(Snapshot()))
    {
      var scoped := ScopedIn(perBackend, kind);
      if host == "" {
        host := if scoped.host == "" then DEFAULT_HOST else scoped.host;
      }
      if port == 0 {
        port := if scoped.port > 0 then scoped.port else DefaultPort(kind);
      }
      if scoped.credential != "" {
        token := scoped.credential;
      }
    }

    method MigrateSwitches()
      modifies this
      ensures Snapshot() == Migrated(old(Snapshot()))
    {
      if exists id :: id in perBackend && perBackend[id].enabled.Some? {
        return;
      }
      SyncActiveConnection();
      perBackend := GiveSwitches(perBackend, kind, autoConnect, ALL_KINDS);
    }
  }
}
