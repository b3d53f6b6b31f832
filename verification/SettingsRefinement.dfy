/** The flat fields and the map together are a plain map from backend to connection, and at
    most one backend is on. */
module SettingsRefinement {
  import opened Text
  import opened SettingsStore

  // ----- kinds and their ids

  lemma IdsAreDistinct(a: Kind, b: Kind)
    ensures KindId(a) == KindId(b) <==> a == b
  {
    var outline := (k: Kind) => (|KindId(k)|, KindId(k)[0], KindId(k)[|KindId(k)| - 1]);
    assert outline(a) == outline(b) ==> a == b;
  }

  lemma AllKindsAreListed(kind: Kind)
    ensures kind in ALL_KINDS
  {
    match kind
    case Hermes => assert ALL_KINDS[0] == kind;
    case OpenCode => assert ALL_KINDS[1] == kind;
    case MiMoCode => assert ALL_KINDS[2] == kind;
    case Codex => assert ALL_KINDS[3] == kind;
    case ClaudeCode => assert ALL_KINDS[4] == kind;
    case Pi => assert ALL_KINDS[5] == kind;
    case OpenClaw => assert ALL_KINDS[6] == kind;
    case XueXiaoMi => assert ALL_KINDS[7] == kind;
  }

  // ----- switches

  lemma {:induction false} SwitchedOffAt(connections: Connections, kept: Kind, kinds: seq<Kind>, kind: Kind)
    ensures var was, now := ScopedIn(connections, kind), ScopedIn(SwitchedOff(connections, kept, kinds), kind);
      now == if kind != kept && kind in kinds && KindId(kind) in connections
             then was.(enabled := Some(false)) else was
    ensures KindId(kind) in SwitchedOff(connections, kept, kinds) <==> KindId(kind) in connections
  {
    if kinds != [] {
      var rest, last := kinds[..|kinds| - 1], kinds[|kinds| - 1];
      SwitchedOffAt(connections, kept, rest, kind);
      IdsAreDistinct(kind, last);
      assert kinds == rest + [last];
    }
  }

  lemma {:induction false} WithSwitchAt(connections: Connections, which: Kind, enabled: bool, kind: Kind)
    ensures ScopedIn(WithSwitch(connections, which, enabled), kind)
         == if kind == which then ScopedIn(connections, kind).(enabled := Some(enabled))
            else ScopedIn(connections, kind)
  {
    IdsAreDistinct(kind, which);
  }

  lemma {:induction false} SyncedAt(s: Settings, kind: Kind)
    ensures Scoped(Synced(s), kind)
         == if kind == s.kind then Connection(s.host, s.port, s.useTls, Trim(s.token), Scoped(s, kind).enabled)
            else Scoped(s, kind)
  {
    IdsAreDistinct(kind, s.kind);
  }

  /** Before the chosen backend's own switch is set. */
  function Quieted(s: Settings, which: Kind, enabled: bool): Connections {
    if enabled then SwitchedOff(Synced(s).perBackend, which, ALL_KINDS) else Synced(s).perBackend
  }

  lemma {:induction false} QuietedAt(s: Settings, which: Kind, enabled: bool, kind: Kind)
    ensures var was, now := Scoped(Synced(s), kind), ScopedIn(Quieted(s, which, enabled), kind);
      && now.(enabled := None) == was.(enabled := None)
      && (kind != which ==> (now.enabled == Some(true) <==> was.enabled == Some(true) && !enabled))
  {
    AllKindsAreListed(kind);
    SwitchedOffAt(Synced(s).perBackend, which, ALL_KINDS, kind);
  }

  lemma {:induction false} SwitchedAt(s: Settings, which: Kind, enabled: bool, kind: Kind)
    ensures Scoped(Switched(s, which, enabled), kind).(enabled := None) == Scoped(Synced(s), kind).(enabled := None)
    ensures IsOn(Switched(s, which, enabled), kind)
       <==> if kind == which then enabled else IsOn(s, kind) && !enabled
  {
    assert Switched(s, which, enabled).perBackend == WithSwitch(Quieted(s, which, enabled), which, enabled);
    SyncedAt(s, kind);
    QuietedAt(s, which, enabled, kind);
    WithSwitchAt(Quieted(s, which, enabled), which, enabled, kind);
  }

  ghost predicate AtMostOneOn(s: Settings) {
    forall a, b :: IsOn(s, a) && IsOn(s, b) ==> a == b
  }

  /** Turning a backend on leaves it the only one, whatever was on before. */
  lemma {:induction false} TurningOnLeavesOne(s: Settings, which: Kind)
    ensures forall kind :: IsOn(Switched(s, which, true), kind) <==> kind == which
  {
    forall kind ensures IsOn(Switched(s, which, true), kind) <==> kind == which {
      SwitchedAt(s, which, true, kind);
    }
  }

  lemma {:induction false} SwitchesStaySingle(s: Settings, which: Kind, enabled: bool)
    requires AtMostOneOn(s)
    ensures AtMostOneOn(Switched(s, which, enabled))
  {
    forall a, b | IsOn(Switched(s, which, enabled), a) && IsOn(Switched(s, which, enabled), b) ensures a == b {
      SwitchedAt(s, which, enabled, a);
      SwitchedAt(s, which, enabled, b);
    }
  }

  // ----- migration

  lemma {:induction false} GivenOneMore(before: Connections, was: Connection, active: Kind, wasOn: bool,
                                        isGiven: bool, last: Kind, kind: Kind)
    requires ScopedIn(before, kind) == if isGiven then was.(enabled := Some(kind == active && wasOn)) else was
    ensures ScopedIn(WithSwitch(before, last, last == active && wasOn), kind)
         == if isGiven || kind == last then was.(enabled := Some(kind == active && wasOn)) else was
  {
    WithSwitchAt(before, last, last == active && wasOn, kind);
  }

  lemma {:induction false} GivenSwitchesAt(connections: Connections, active: Kind, wasOn: bool, kinds: seq<Kind>,
                                           kind: Kind)
    ensures var was, now := ScopedIn(connections, kind),
                            ScopedIn(GivenSwitches(connections, active, wasOn, kinds), kind);
      now == if kind in kinds then was.(enabled := Some(kind == active && wasOn)) else was
  {
    if kinds != [] {
      var rest, last := kinds[..|kinds| - 1], kinds[|kinds| - 1];
      var before := GivenSwitches(connections, active, wasOn, rest);
      GivenSwitchesAt(connections, active, wasOn, rest, kind);
      GivenOneMore(before, ScopedIn(connections, kind), active, wasOn, kind in rest, last, kind);
      assert kind in kinds <==> kind in rest || kind == last by {
        assert kinds == rest + [last];
      }
    }
  }

  /** A file from before the switches leaves exactly the old active backend on, or none, and
      every backend with a switch of its own; a newer file is left alone. */
  lemma {:induction false} MigrationTurnsOnTheActive(s: Settings)
    ensures HasSwitches(s) ==> Migrated(s) == s
    ensures !HasSwitches(s) ==>
      forall kind :: Scoped(Migrated(s), kind)
                  == Scoped(Synced(s), kind).(enabled := Some(kind == s.kind && s.autoConnect))
    ensures HasSwitches(Migrated(s)) && Migrated(Migrated(s)) == Migrated(s)
  {
    if !HasSwitches(s) {
      forall kind
        ensures Scoped(Migrated(s), kind) == Scoped(Synced(s), kind).(enabled := Some(kind == s.kind && s.autoConnect))
      {
        AllKindsAreListed(kind);
        GivenSwitchesAt(Synced(s).perBackend, s.kind, s.autoConnect, ALL_KINDS, kind);
      }
      assert Scoped(Migrated(s), s.kind).enabled.Some?;
      assert Migrated(s).perBackend[KindId(s.kind)].enabled.Some?;
    }
  }

  // ----- the plain map

  /** What the user typed for one backend. */
  datatype Wire = Wire(host: string, port: nat, useTls: bool, credential: string)

  type Wires = Kind -> Wire

  datatype Plain = Plain(kind: Kind, wires: Wires)

  function WireOf(c: Connection): Wire {
    Wire(c.host, c.port, c.useTls, Trim(c.credential))
  }

  /** Where the settings keep it: flat for the active backend, in the map for the others. */
  function Remembered(s: Settings, kind: Kind): Wire {
    if kind == s.kind then Wire(s.host, s.port, s.useTls, Trim(s.token)) else WireOf(Scoped(s, kind))
  }

  function Defaulted(kind: Kind, w: Wire): Wire {
    w.(host := HostOr(w.host, DEFAULT_HOST), port := PortOr(w.port, DefaultPort(kind)))
  }

  function Rewired(wires: Wires, kind: Kind, w: Wire): Wires {
    k => if k == kind then w else wires(k)
  }

  // ----- runs

  datatype Op =
    | Edit(host: string, port: nat, useTls: bool, token: string)
    | Switch(next: Kind)
    | Turn(which: Kind, enabled: bool)
    | Restart

  function Next(s: Settings, op: Op): Settings {
    match op
    case Edit(host, port, useTls, token) => s.(host := host, port := port, useTls := useTls, token := token)
    case Switch(next) => BackendSwitched(s, next)
    case Turn(which, enabled) => Switched(s, which, enabled)
    case Restart => Loaded(Saved(s))
  }

  function PlainNext(p: Plain, op: Op): Plain {
    match op
    case Edit(host, port, useTls, token) => p.(wires := Rewired(p.wires, p.kind, Wire(host, port, useTls, Trim(token))))
    case Switch(next) => Plain(next, Rewired(p.wires, next, Defaulted(next, p.wires(next))))
    case Turn(_, _) => p
    case Restart => p.(wires := Rewired(p.wires, p.kind, Defaulted(p.kind, p.wires(p.kind))))
  }

  function Run(s: Settings, ops: seq<Op>): Settings {
    if ops == [] then s else Next(Run(s, ops[..|ops| - 1]), ops[|ops| - 1])
  }

  function PlainRun(p: Plain, ops: seq<Op>): Plain {
    if ops == [] then p else PlainNext(PlainRun(p, ops[..|ops| - 1]), ops[|ops| - 1])
  }

  ghost predicate Agrees(s: Settings, p: Plain) {
    s.kind == p.kind && forall kind :: Remembered(s, kind) == p.wires(kind)
  }

  lemma {:induction false} SyncingRemembers(s: Settings, kind: Kind)
    ensures WireOf(Scoped(Synced(s), kind)) == Remembered(s, kind)
  {
    SyncedAt(s, kind);
    TrimIsIdempotent(s.token);
  }

  lemma {:induction false} SwitchingRemembers(s: Settings, next: Kind, kind: Kind)
    ensures Remembered(BackendSwitched(s, next), kind)
         == if kind == next then Defaulted(next, Remembered(s, next)) else Remembered(s, kind)
  {
    SyncingRemembers(s, kind);
  }

  lemma {:induction false} TurningRemembers(s: Settings, which: Kind, enabled: bool, kind: Kind)
    ensures Remembered(Switched(s, which, enabled), kind) == Remembered(s, kind)
  {
    SwitchedAt(s, which, enabled, kind);
    SyncingRemembers(s, kind);
  }

  lemma {:induction false} BlankTrims()
    ensures Trim("") == ""
  {
  }

  lemma {:induction false} LoadingRemembers(file: Settings, kind: Kind)
    ensures Remembered(Loaded(file), kind) == Remembered(ScopedApplied(file), kind)
  {
    var applied := ScopedApplied(file);
    MigrationTurnsOnTheActive(applied);
    SyncedAt(applied, kind);
    TrimIsIdempotent(applied.token);
  }

  /** Saving and loading again keeps everything, although the file has no flat credential. */
  lemma {:induction false} RestartingRemembers(s: Settings, kind: Kind)
    ensures Remembered(Loaded(Saved(s)), kind)
         == if kind == s.kind then Defaulted(kind, Remembered(s, kind)) else Remembered(s, kind)
  {
    LoadingRemembers(Saved(s), kind);
    SyncedAt(s, kind);
    SyncedAt(s, s.kind);
    TrimIsIdempotent(s.token);
    BlankTrims();
  }

  /** Loading a file: its own host and port win over the record of its backend, but the record's
      credential wins over the file's; what neither has gets the default. */
  lemma {:induction false} LoadedFieldsComeFrom(file: Settings)
    ensures var now, of := Loaded(file), Scoped(file, file.kind);
      && now.kind == file.kind && now.useTls == file.useTls
      && now.host in (if file.host != "" then {file.host} else if of.host != "" then {of.host} else {DEFAULT_HOST})
      && now.port in (if file.port > 0 then {file.port} else if of.port > 0 then {of.port}
                      else {DefaultPort(file.kind)})
      && now.token in (if of.credential != "" then {of.credential} else {file.token})
  {
  }

  /** The flat credential is not in the file: what comes back is the trimmed one of the record,
      and the old global switch reads as on. */
  lemma {:induction false} RestartingTrimsTheCredential(s: Settings)
    ensures var back := Loaded(Saved(s));
      back.token == Trim(s.token) && back.kind == s.kind && back.useTls == s.useTls && back.autoConnect
  {
    SyncedAt(s, s.kind);
  }

  lemma {:induction false} StepAgrees(s: Settings, p: Plain, op: Op)
    requires Agrees(s, p)
    ensures Agrees(Next(s, op), PlainNext(p, op))
  {
    var after, plain := Next(s, op), PlainNext(p, op);
    forall kind ensures Remembered(after, kind) == plain.wires(kind) {
      assert Remembered(s, kind) == p.wires(kind);
      match op
      case Edit(_, _, _, _) =>
      case Switch(next) =>
        assert Remembered(s, next) == p.wires(next);
        SwitchingRemembers(s, next, kind);
      case Turn(which, enabled) => TurningRemembers(s, which, enabled, kind);
      case Restart =>
        assert Remembered(s, s.kind) == p.wires(s.kind);
        RestartingRemembers(s, kind);
    }
    if op.Restart? {
      MigrationTurnsOnTheActive(ScopedApplied(Saved(s)));
    }
  }

  lemma {:induction false} RunsAgree(s: Settings, p: Plain, ops: seq<Op>)
    requires Agrees(s, p)
    ensures Agrees(Run(s, ops), PlainRun(p, ops))
  {
    if ops != [] {
      RunsAgree(s, p, ops[..|ops| - 1]);
      StepAgrees(Run(s, ops[..|ops| - 1]), PlainRun(p, ops[..|ops| - 1]), ops[|ops| - 1]);
    }
  }

  /** Whatever was edited, switched, turned on or off or restarted in between: a backend comes
      back with its last host, port, TLS choice and credential, with the defaults for an empty
      host and a zero port. */
  lemma {:induction false} ReturningRestores(s: Settings, p: Plain, ops: seq<Op>, next: Kind)
    requires Agrees(s, p)
    ensures var back := BackendSwitched(Run(s, ops), next);
      Wire(back.host, back.port, back.useTls, Trim(back.token)) == Defaulted(next, PlainRun(p, ops).wires(next))
  {
    RunsAgree(s, p, ops);
    SwitchingRemembers(Run(s, ops), next, next);
  }

  // ----- one switch over whole runs

  lemma {:induction false} SwitchingKeepsSwitches(s: Settings, next: Kind, kind: Kind)
    ensures IsOn(BackendSwitched(s, next), kind) <==> IsOn(s, kind)
  {
    SyncedAt(s, kind);
  }

  /** A restart keeps the switches; only a client that never used one gets the active backend's
      turned on. */
  lemma {:induction false} RestartingKeepsSwitches(s: Settings, kind: Kind)
    ensures IsOn(Loaded(Saved(s)), kind)
       <==> if HasSwitches(s) then IsOn(s, kind) else kind == s.kind
  {
    var file := Saved(s);
    SyncedAt(s, kind);
    SyncingKeepsSwitches(s);
    MigrationTurnsOnTheActive(ScopedApplied(file));
    SyncedAt(ScopedApplied(file), kind);
  }

  lemma {:induction false} SyncingKeepsSwitches(s: Settings)
    ensures HasSwitches(Synced(s)) <==> HasSwitches(s)
  {
    var synced := Synced(s).perBackend;
    if id :| id in s.perBackend && s.perBackend[id].enabled.Some? {
      assert synced[id].enabled.Some?;
    }
    if id :| id in synced && synced[id].enabled.Some? {
      assert id in s.perBackend && s.perBackend[id].enabled.Some?;
    }
  }

  lemma {:induction false} StepStaysSingle(s: Settings, op: Op)
    requires AtMostOneOn(s)
    ensures AtMostOneOn(Next(s, op))
  {
    forall a, b | IsOn(Next(s, op), a) && IsOn(Next(s, op), b) ensures a == b {
      match op
      case Edit(_, _, _, _) =>
        assert IsOn(s, a) && IsOn(s, b);
      case Switch(next) =>
        SwitchingKeepsSwitches(s, next, a);
        SwitchingKeepsSwitches(s, next, b);
      case Turn(which, enabled) => SwitchesStaySingle(s, which, enabled);
      case Restart =>
        RestartingKeepsSwitches(s, a);
        RestartingKeepsSwitches(s, b);
    }
  }

  /** From at most one backend on, no run ever has two. */
  lemma {:induction false} NeverTwoOn(s: Settings, ops: seq<Op>)
    requires AtMostOneOn(s)
    ensures AtMostOneOn(Run(s, ops))
  {
    if ops != [] {
      NeverTwoOn(s, ops[..|ops| - 1]);
      StepStaysSingle(Run(s, ops[..|ops| - 1]), ops[|ops| - 1]);
    }
  }
}
