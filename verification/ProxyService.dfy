/**
  The system-proxy and runtime operations of the desktop daemon. The weather says what is known of the calls
  to the operating system, the database and the engine; a failed call has no effect.
 */
module ProxyService {
  import opened Options
  import opened ProxySessions
  import opened ProxyState

  class Service {
    const hasProxy: bool
    // the database
    var proxyOwner: Option<ProxyRecord>
    var activeProfileID: string
    var profiles: map<string, Profile>
    // the operating system
    var os: OsProxy
    // the engine
    var engine: EngineView
    // history, read by no operation but a crash
    var writer: Writer
    var baseline: OsProxy
    /** One entry per effect of this request on the OS proxy or the database: where a crash can strike. */
    var crashPoints: seq<CrashPoint>
    /** Some effect has left a proxy that qkbox had set pointing at no running engine. */
    var deadSeen: bool
    /** The profile whose required capabilities were prepared last. */
    var prepared: Option<string>
    /** Some effect has replaced settings that another program wrote and that differ from the record. */
    var overwrote: bool
    // what is known of the calls
    var weather: Weather

    function Now(): CrashPoint
      reads this
    {
      CrashPoint(os, proxyOwner, activeProfileID, profiles, writer, baseline)
    }

    function View(): Moment
      reads this
    {
      Moment(os, proxyOwner, engine, activeProfileID, profiles, weather)
    }

    ghost predicate Valid()
      reads this
    {
      && CrashSafe(Now())
      && (forall p <- crashPoints ::
            CrashSafe(p) && (!hasProxy ==> !p.writer.Applied?) && (Owned(p.record) ==> p.baseline == baseline))
      && (!hasProxy ==> !writer.Applied?)
    }

    /** A proxy that qkbox has set points at the running engine. */
    predicate NoDeadProxy()
      reads this
    {
      writer.Applied? ==>
        && engine.Started? && engine.runtime.listeners != []
        && engine.runtime.listeners[0] == Listener(writer.addr, writer.port)
    }

    /** Not now, and at no point passed so far, in the middle of an operation or between two. */
    ghost predicate NeverDead()
      reads this
    {
      NoDeadProxy() && !deadSeen
    }

    /** The OS proxy shows what the ownership record says. */
    predicate Mine()
      reads this
    {
      Owned(proxyOwner) && Matches(os, proxyOwner.value)
    }

    constructor (hasProxy: bool, os: OsProxy, profiles: map<string, Profile>, weather: Weather)
      ensures Valid() && NeverDead() && this.hasProxy == hasProxy && this.os == os && this.profiles == profiles
      ensures this.weather == weather && !overwrote && engine.Idle? && proxyOwner.None? && activeProfileID == ""
    {
      this.hasProxy, this.os, this.profiles, this.weather := hasProxy, os, profiles, weather;
      proxyOwner, activeProfileID, engine := None, "", Idle;
      writer, baseline, deadSeen, overwrote, prepared := Foreign, os, false, false, None;
      crashPoints := [];
    }

    /** A request has the mutex: whatever ownership it finds or takes goes back to these settings. */
    method Begin()
      requires Valid()
      modifies this`baseline, this`crashPoints
      ensures Valid() && crashPoints == [Now()] && baseline == GoesBackTo(View())
    {
      if !Owned(proxyOwner) {
        baseline := os;
      }
      crashPoints := [Now()];
    }

    // ----- The calls that may fail -----

    method Fails(call: Call) returns (failed: bool)
      ensures Works(weather, call) ==> !failed
      ensures Down(weather, call) ==> failed
    {
      failed := *;
      failed := if call in weather then !weather[call] else failed;
    }

    method LoadProxyOwner() returns (ok: bool, record: Option<ProxyRecord>)
      ensures Works(weather, LoadOwner) ==> ok
      ensures ok ==> record == proxyOwner
    {
      var failed := Fails(LoadOwner);
      ok, record := !failed, proxyOwner;
    }

    method SaveProxyOwner(record: ProxyRecord) returns (ok: bool)
      modifies this`proxyOwner, this`crashPoints
      ensures (Works(weather, SaveOwner) ==> ok) && (Down(weather, SaveOwner) ==> !ok)
      ensures proxyOwner == if ok then Some(record) else old(proxyOwner)
      ensures crashPoints == old(crashPoints) + [Now()]
    {
      var failed := Fails(SaveOwner);
      ok := !failed;
      proxyOwner := if ok then Some(record) else proxyOwner;
      crashPoints := crashPoints + [Now()];
    }

    method DeleteProxyOwner() returns (ok: bool)
      modifies this`proxyOwner, this`crashPoints
      ensures (Works(weather, DeleteOwner) ==> ok) && (Down(weather, DeleteOwner) ==> !ok)
      ensures proxyOwner == if ok then None else old(proxyOwner)
      ensures crashPoints == old(crashPoints) + [Now()]
    {
      var failed := Fails(DeleteOwner);
      ok := !failed;
      proxyOwner := if ok then None else proxyOwner;
      crashPoints := crashPoints + [Now()];
    }

    method Snapshot() returns (ok: bool, snapshot: OsProxy)
      ensures Works(weather, TakeSnapshot) ==> ok
      ensures ok ==> snapshot == os
    {
      var failed := Fails(TakeSnapshot);
      ok, snapshot := !failed, os;
    }

    method CurrentState() returns (ok: bool, state: OsProxy)
      ensures Works(weather, ReadSettings) ==> ok
      ensures ok ==> state.enabled == os.enabled && state.addr == os.addr && state.port == os.port
    {
      var failed := Fails(ReadSettings);
      ok, state := !failed, OsProxy(os.enabled, os.addr, os.port, 0);
    }

    /** Sets address and port; what happens to the other settings depends on the platform. */
    method Apply(addr: string, port: nat) returns (ok: bool)
      modifies this`os, this`overwrote, this`writer, this`crashPoints, this`deadSeen
      ensures deadSeen == (old(deadSeen) || !NoDeadProxy())
      ensures overwrote == (old(overwrote) || (ok && old(writer).Foreign? && !old(Mine())))
      ensures (Works(weather, ApplySettings) ==> ok) && (Down(weather, ApplySettings) ==> !ok)
      ensures ok ==> os.enabled && os.addr == addr && os.port == port && writer == Applied(addr, port)
      ensures !ok ==> os == old(os) && writer == old(writer)
      ensures crashPoints == old(crashPoints) + [Now()]
    {
      var failed := Fails(ApplySettings);
      ok := !failed;
      if ok {
        var rest: int := *;
        overwrote := overwrote || (writer.Foreign? && !Mine());
        os, writer := OsProxy(true, addr, port, rest), Applied(addr, port);
      }
      deadSeen := deadSeen || !NoDeadProxy();
      crashPoints := crashPoints + [Now()];
    }

    method Restore(snapshot: OsProxy) returns (ok: bool)
      modifies this`os, this`overwrote, this`writer, this`crashPoints
      ensures (Works(weather, PutBack) ==> ok) && (Down(weather, PutBack) ==> !ok)
      ensures overwrote == (old(overwrote) || (ok && old(writer).Foreign? && !old(Mine())))
      ensures ok ==> os == snapshot && writer == Restored
      ensures !ok ==> os == old(os) && writer == old(writer)
      ensures crashPoints == old(crashPoints) + [Now()]
    {
      var failed := Fails(PutBack);
      ok := !failed;
      if ok {
        overwrote := overwrote || (writer.Foreign? && !Mine());
        os, writer := snapshot, Restored;
      }
      crashPoints := crashPoints + [Now()];
    }

    /** No runtime is started before the capabilities it requires are prepared. */
    method StartEngine(id: string, profile: Profile) returns (result: Result)
      requires prepared == Some(id)
      modifies this`engine, this`deadSeen
      ensures deadSeen == (old(deadSeen) || !NoDeadProxy())
      ensures old(engine).Started? ==> result == Error(EngineAlreadyStarted)
      ensures old(engine).Fatal? ==> result == Error(EngineBusy)
      ensures old(engine).Idle? ==>
                result in {Success, Error(RuntimeStartFailed)} && (Works(weather, StartRuntime) ==> result == Success)
      ensures engine == if result == Success then Started(Runtime(id, profile.listeners)) else old(engine)
    {
      match engine {
        case Started(_) => result := Error(EngineAlreadyStarted);
        case Fatal(_) => result := Error(EngineBusy);
        case Idle =>
          var failed := Fails(StartRuntime);
          result := if failed then Error(RuntimeStartFailed) else Success;
          engine := if failed then Idle else Started(Runtime(id, profile.listeners));
      }
      deadSeen := deadSeen || !NoDeadProxy();
    }

    method StopEngine() returns (result: Result)
      modifies this`engine, this`deadSeen
      ensures deadSeen == (old(deadSeen) || (!old(engine).Idle? && !NoDeadProxy()))
      ensures old(engine).Idle? ==> result == Error(EngineNotStarted) && engine == Idle
      ensures !old(engine).Idle? ==>
                && result in {Success, Error(RuntimeStopFailed)} && (Works(weather, StopRuntime) ==> result == Success)
                && engine == if result == Success then Idle else Fatal(old(engine).runtime)
    {
      if engine.Idle? {
        return Error(EngineNotStarted);
      }
      var failed := Fails(StopRuntime);
      engine := if failed then Fatal(engine.runtime) else Idle;
      deadSeen := deadSeen || !NoDeadProxy();
      return if failed then Error(RuntimeStopFailed) else Success;
    }

    method ListenerInfo() returns (result: Result, listeners: seq<Listener>)
      ensures !engine.Started? ==> result == Error(EngineNotStarted)
      ensures result == Success ==> engine.Started? && listeners == engine.runtime.listeners
      ensures result in {Success, Error(EngineNotStarted), Error(Internal)}
      ensures Works(weather, AskListeners) && engine.Started? ==> result == Success
    {
      if !engine.Started? {
        return Error(EngineNotStarted), [];
      }
      var failed := Fails(AskListeners);
      if failed {
        return Error(Internal), [];
      }
      return Success, engine.runtime.listeners;
    }

    method Available() returns (ok: bool)
      ensures (Works(weather, AskPlatform) ==> ok) && (Down(weather, AskPlatform) ==> !ok)
    {
      var failed := Fails(AskPlatform);
      ok := !failed;
    }

    method PrepareCapabilities(id: string) returns (ok: bool)
      modifies this`prepared
      ensures Works(weather, Prepare) ==> ok
      ensures prepared == if ok then Some(id) else None
    {
      var failed := Fails(Prepare);
      ok := !failed;
      prepared := if ok then Some(id) else None;
    }

    method LoadTarget(id: string) returns (result: Result, profile: Profile)
      ensures result == Success ==> Usable(profiles, id) && profile == profiles[id]
      ensures result != Success ==> result.error.stage.None?
      ensures Works(weather, LoadProfile) ==>
                result == if Usable(profiles, id) then Success else Error(TargetError(profiles, id))
    {
      profile := Profile("", false, []);
      var failed := Fails(LoadProfile);
      if failed {
        return Error(Internal), profile;
      }
      if id !in profiles {
        return Error(ProfileNotFound), profile;
      }
      failed := Fails(LoadProfile);
      if failed {
        return Error(Internal), profile;
      }
      if profiles[id].content == "" {
        return Error(ProfileContentEmpty), profile;
      }
      if !profiles[id].valid {
        return Error(ConfigValidationFailed), profile;
      }
      return Success, profiles[id];
    }

    // ----- Switching the system proxy -----

    /** The record names an address that is not the engine's, and the OS proxy shows that address. */
    predicate PinnedElsewhere()
      reads this
      requires engine.Started? && engine.runtime.listeners != []
    {
      Mine() && Listener(proxyOwner.value.addr, proxyOwner.value.port) != engine.runtime.listeners[0]
    }

    method EnableProxy() returns (result: Result)
      requires Valid() && hasProxy && baseline == GoesBackTo(View())
      modifies this`os, this`overwrote, this`writer, this`proxyOwner, this`crashPoints, this`deadSeen
      ensures Valid() && (old(NoDeadProxy()) ==> NoDeadProxy() && deadSeen == old(deadSeen))
      ensures result != Success ==> os == old(os) && result != Error(PlatformProxyUnsupported)
      // The settings to go back to are those of the first enable, for as long as ownership lasts.
      ensures result == Success ==>
                && engine.Started? && engine.runtime.listeners != [] && Mine()
                && ProxyOn(old(View()), engine.runtime.listeners[0], View())
                && (PointsAt(os, engine.runtime.listeners[0]) <==> !old(PinnedElsewhere()))
      ensures result == Success ==>
                writer == if old(Mine()) then old(writer)
                          else Applied(engine.runtime.listeners[0].addr, engine.runtime.listeners[0].port)
      ensures Calm(weather) ==> SwitchDone(true, old(View()), true, result, View())
      // However the enable fails, nothing is owned afterwards that was not before, unless the undo fails too.
      ensures result != Success && !Owned(old(proxyOwner)) && UndoWorks(weather) ==>
                !Owned(proxyOwner)
    {
      var info, listeners := ListenerInfo();
      if info != Success {
        return info;
      }
      if listeners == [] {
        return Error(PlatformProxyNoListener);
      }
      var target := listeners[0];
      var ok, record := LoadProxyOwner();
      if !ok {
        return Error(PlatformProxyFailed);
      }
      if Owned(record) {
        result := ReapplyOwnedProxy(record.value, target);
      } else {
        result := TakeOwnership(target);
      }
    }

    method ReapplyOwnedProxy(record: ProxyRecord, target: Listener) returns (result: Result)
      requires Valid() && hasProxy && proxyOwner == Some(record) && record.qkboxOwned
      requires engine.Started? && engine.runtime.listeners != [] && engine.runtime.listeners[0] == target
      modifies this`os, this`overwrote, this`writer, this`proxyOwner, this`crashPoints, this`deadSeen
      ensures Valid() && (old(NoDeadProxy()) ==> deadSeen == old(deadSeen))
      ensures result in {Success, Error(PlatformProxyFailed)} && (Calm(weather) ==> result == Success)
      ensures writer == old(writer) || writer == Applied(target.addr, target.port)
      ensures result != Success ==> os == old(os)
      ensures result == Success && old(Mine()) ==>
                os == old(os) && proxyOwner == old(proxyOwner) && writer == old(writer)
      ensures result == Success && !old(Mine()) ==>
                PointsAt(os, target) && proxyOwner == Some(record.(addr := target.addr, port := target.port))
      ensures result == Success && !old(Mine()) ==> writer == Applied(target.addr, target.port)
    {
      var ok, state := CurrentState();
      if !ok {
        return Error(PlatformProxyFailed);
      }
      if Matches(state, record) {
        return Success;
      }
      ok := SaveProxyOwner(record.(addr := target.addr, port := target.port));
      if !ok {
        return Error(PlatformProxyFailed);
      }
      ok := Apply(target.addr, target.port);
      return if ok then Success else Error(PlatformProxyFailed);
    }

    /**
      The record first, then the settings. If these cannot be applied they are put back and the record goes,
      so that a failure leaves no ownership behind, unless the undo fails too.
     */
    method PutOn(record: ProxyRecord) returns (result: Result)
      requires Valid() && hasProxy && record.qkboxOwned && record.snapshot == baseline == os && !writer.Applied?
      requires engine.Started? && engine.runtime.listeners != []
      requires engine.runtime.listeners[0] == Listener(record.addr, record.port)
      modifies this`os, this`overwrote, this`writer, this`proxyOwner, this`crashPoints, this`deadSeen
      ensures Valid() && deadSeen == old(deadSeen) && (old(writer) == Restored ==> overwrote == old(overwrote))
      ensures result in {Success, Error(PlatformProxyFailed)}
      ensures Works(weather, SaveOwner) && Works(weather, ApplySettings) ==> result == Success
      ensures Down(weather, SaveOwner) || Down(weather, ApplySettings) ==> result != Success
      ensures result == Success ==>
                && PointsAt(os, Listener(record.addr, record.port)) && writer == Applied(record.addr, record.port)
                && proxyOwner == Some(record)
      ensures result != Success ==> os == old(os) && writer in {old(writer), Restored}
      ensures result != Success && UndoWorks(weather) ==>
                proxyOwner in {None, old(proxyOwner)}
    {
      var ok := SaveProxyOwner(record);
      if !ok {
        return Error(PlatformProxyFailed);
      }
      ok := Apply(record.addr, record.port);
      if !ok {
        var restored := Restore(record.snapshot);
        if restored {
          var _ := DeleteProxyOwner();
        }
        return Error(PlatformProxyFailed);
      }
      return Success;
    }

    method TakeOwnership(target: Listener) returns (result: Result)
      requires Valid() && hasProxy && !Owned(proxyOwner) && baseline == os
      requires engine.Started? && engine.runtime.listeners != [] && engine.runtime.listeners[0] == target
      modifies this`os, this`overwrote, this`writer, this`proxyOwner, this`crashPoints, this`deadSeen
      ensures Valid() && deadSeen == old(deadSeen)
      ensures result in {Success, Error(PlatformProxyFailed)} && (Calm(weather) ==> result == Success)
      ensures Down(weather, ApplySettings) ==> result != Success
      ensures result == Success ==>
                && PointsAt(os, target) && proxyOwner == Some(ProxyRecord(true, old(os), target.addr, target.port))
                && writer == Applied(target.addr, target.port)
      ensures result != Success ==> os == old(os) && writer in {old(writer), Restored}
      ensures result != Success && UndoWorks(weather) ==> !Owned(proxyOwner)
    {
      var ok, snapshot := Snapshot();
      if !ok {
        return Error(PlatformProxyFailed);
      }
      result := PutOn(ProxyRecord(true, snapshot, target.addr, target.port));
    }

    /**
      The common core of disableProxy, restoreProxyIfOwned, bestEffortProxyRestore and repairStaleProxy:
      put the captured settings back if the OS proxy still shows qkbox's, forget the record if it does not.
      Two of the four ask for the availability of the platform once they have found a record.
     */
    method RestoreIfMine(asks: bool) returns (result: Result)
      requires Valid() && hasProxy
      modifies this`os, this`overwrote, this`writer, this`proxyOwner, this`crashPoints
      ensures Valid()
      ensures result in {Success, Error(PlatformProxyFailed)} && (Calm(weather) ==> result == Success)
      ensures result == Success ==> !writer.Applied?
      ensures result != Success ==> os == old(os) && writer == old(writer) && proxyOwner == old(proxyOwner)
      ensures !old(Mine()) ==> os == old(os)
      ensures result == Success && old(Mine()) ==> os == old(proxyOwner).value.snapshot && writer == Restored
      ensures proxyOwner in {None, old(proxyOwner)} && overwrote == old(overwrote)
      ensures result == Success && Works(weather, DeleteOwner) ==> ProxyOff(old(View()), View())
      ensures asks && Owned(old(proxyOwner)) && Down(weather, AskPlatform) ==> result != Success
      ensures !Owned(old(proxyOwner)) ==> crashPoints == old(crashPoints)
    {
      var ok, record := LoadProxyOwner();
      if !ok {
        return Error(PlatformProxyFailed);
      }
      if !Owned(record) {
        return Success;
      }
      if asks {
        var available := Available();
        if !available {
          return Error(PlatformProxyFailed);
        }
      }
      var read, state := CurrentState();
      if !read {
        return Error(PlatformProxyFailed);
      }
      if !Matches(state, record.value) {
        var _ := DeleteProxyOwner();
        return Success;
      }
      var restored := Restore(record.value.snapshot);
      if !restored {
        return Error(PlatformProxyFailed);
      }
      var _ := DeleteProxyOwner();
      return Success;
    }

    /** disableProxy and enableProxy, behind the check of the platform. */
    method PlatformSetSystemProxyEnabled(enabled: bool) returns (result: Result)
      requires Valid()
      modifies this`os, this`overwrote, this`writer, this`proxyOwner, this`baseline, this`crashPoints, this`deadSeen
      ensures Valid() && (old(NoDeadProxy()) ==> NoDeadProxy() && deadSeen == old(deadSeen))
      ensures baseline == GoesBackTo(old(View()))
      ensures Calm(weather) || (result == Success && Works(weather, DeleteOwner)) ==>
                SwitchDone(hasProxy, old(View()), enabled, result, View())
      ensures result == Error(PlatformProxyUnsupported) ==> View() == old(View()) && writer == old(writer)
      ensures Down(weather, AskPlatform) ==> result == Error(PlatformProxyUnsupported)
      ensures result == Success ==> hasProxy
      ensures result != Success ==> os == old(os)
      ensures !enabled && result == Success ==> !writer.Applied?
      ensures !enabled && result == Success && old(Mine()) ==> os == old(proxyOwner).value.snapshot
      ensures !enabled && !old(Mine()) ==> os == old(os)
      ensures !enabled ==> proxyOwner in {None, old(proxyOwner)} && overwrote == old(overwrote)
      ensures !enabled && !Owned(old(proxyOwner)) ==> !Owned(proxyOwner) && Undisturbed(crashPoints, os)
      ensures enabled && result == Success ==>
                && engine.Started? && engine.runtime.listeners != [] && Mine()
                && (PointsAt(os, engine.runtime.listeners[0]) <==> !old(PinnedElsewhere()))
      ensures enabled && result == Success ==>
                writer == if old(Mine()) then old(writer)
                          else Applied(engine.runtime.listeners[0].addr, engine.runtime.listeners[0].port)
      ensures enabled && result != Success && !Owned(old(proxyOwner)) && UndoWorks(weather) ==> !Owned(proxyOwner)
    {
      Begin();
      if !hasProxy {
        return Error(PlatformProxyUnsupported);
      }
      var available := Available();
      if !available {
        return Error(PlatformProxyUnsupported);
      }
      if enabled {
        result := EnableProxy();
      } else {
        result := RestoreIfMine(false);
      }
    }

    method RestoreProxyIfOwned() returns (result: Result)
      requires Valid()
      modifies this`os, this`overwrote, this`writer, this`proxyOwner, this`crashPoints
      ensures Valid()
      ensures result in {Success, Error(PlatformProxyFailed)} && (Calm(weather) ==> result == Success)
      ensures result == Success ==> !writer.Applied?
      ensures result != Success ==> os == old(os) && writer == old(writer) && proxyOwner == old(proxyOwner)
      ensures !old(Mine()) || !hasProxy ==> os == old(os)
      ensures proxyOwner in {None, old(proxyOwner)} && (!hasProxy ==> proxyOwner == old(proxyOwner))
      ensures result == Success && hasProxy && Works(weather, DeleteOwner) ==> ProxyOff(old(View()), View())
      ensures hasProxy && Owned(old(proxyOwner)) && Down(weather, AskPlatform) ==> result != Success
      ensures result == Success && hasProxy && old(Mine()) ==>
                os == old(proxyOwner).value.snapshot && writer == Restored
      ensures overwrote == old(overwrote)
      ensures !Owned(old(proxyOwner)) ==> crashPoints == old(crashPoints)
    {
      if !hasProxy {
        return Success;
      }
      result := RestoreIfMine(true);
    }

    // ----- Starting and stopping the engine -----

    method EngineStart() returns (result: Result)
      requires Valid()
      modifies this`engine, this`deadSeen, this`prepared, this`baseline, this`crashPoints
      ensures Valid() && (old(NoDeadProxy()) ==> NoDeadProxy() && deadSeen == old(deadSeen))
      ensures baseline == GoesBackTo(old(View())) && crashPoints == [Now()]
      ensures result == Success ==>
                && old(engine).Idle? && Usable(profiles, activeProfileID)
                && engine == Started(Runtime(activeProfileID, profiles[activeProfileID].listeners))
      ensures result != Success ==> engine == old(engine) && result.error.stage.None?
      ensures Calm(weather) || result == Success ==> StartDone(old(View()), result, View())
    {
      Begin();
      var failed := Fails(LoadActiveID);
      if failed {
        return Error(Internal);
      }
      if activeProfileID == "" {
        return Error(EngineNoActiveProfile);
      }
      var profile;
      result, profile := LoadTarget(activeProfileID);
      if result != Success {
        return;
      }
      var granted := PrepareCapabilities(activeProfileID);
      if !granted {
        return Error(PrepareFailed);
      }
      result := StartEngine(activeProfileID, profile);
    }

    method EngineStop() returns (result: Result)
      requires Valid()
      modifies this`engine, this`os, this`overwrote, this`writer, this`proxyOwner, this`baseline, this`crashPoints
      modifies this`deadSeen
      ensures Valid() && deadSeen == old(deadSeen) && (old(NoDeadProxy()) ==> NoDeadProxy())
      ensures baseline == GoesBackTo(old(View()))
      ensures Calm(weather) || (result == Success && Works(weather, DeleteOwner)) ==>
                StopDone(hasProxy, old(View()), result, View())
      // A proxy that cannot come off keeps the engine running.
      ensures hasProxy && Owned(old(proxyOwner)) && Down(weather, AskPlatform) ==>
                result != Success && View() == old(View())
      ensures !old(Mine()) ==> os == old(os)
      ensures proxyOwner in {None, old(proxyOwner)}
      ensures result == Success ==> engine.Idle? && !old(engine).Idle? && !writer.Applied?
      ensures result != Success ==> engine == old(engine) || (engine.Fatal? && !old(engine).Idle? && !writer.Applied?)
      ensures overwrote == old(overwrote)
      ensures !Owned(old(proxyOwner)) ==> !Owned(proxyOwner) && Undisturbed(crashPoints, os)
    {
      Begin();
      result := RestoreProxyIfOwned();
      if result != Success {
        return;
      }
      result := StopEngine();
    }

    // ----- Activation -----

    /** The settings that activation takes off and puts back: a record that the OS proxy still shows. */
    predicate Captured()
      reads this
    {
      hasProxy && Mine()
    }

    function CapturedRecord(): Option<ProxyRecord>
      reads this
    {
      if Captured() then proxyOwner else None
    }

    method CaptureOwnedProxy() returns (result: Result, record: Option<ProxyRecord>)
      requires Valid()
      modifies this`proxyOwner, this`crashPoints
      ensures Valid()
      ensures result in {Success, Error(PlatformProxyFailed)} && (Calm(weather) ==> result == Success)
      ensures result == Success ==> record == old(CapturedRecord())
      ensures old(Mine()) || result != Success || !hasProxy || !Owned(old(proxyOwner)) ==> proxyOwner == old(proxyOwner)
      ensures proxyOwner in {None, old(proxyOwner)}
      // A record that the settings no longer show is forgotten.
      ensures result == Success && Works(weather, DeleteOwner) ==>
                proxyOwner == if hasProxy && Owned(old(proxyOwner)) && !old(Mine()) then None else old(proxyOwner)
      ensures hasProxy && Owned(old(proxyOwner)) && Down(weather, AskPlatform) ==> result != Success
      ensures !Owned(old(proxyOwner)) ==> crashPoints == old(crashPoints)
    {
      record := None;
      if !hasProxy {
        return Success, None;
      }
      var ok, found := LoadProxyOwner();
      if !ok {
        return Error(PlatformProxyFailed), None;
      }
      if !Owned(found) {
        return Success, None;
      }
      var available := Available();
      if !available {
        return Error(PlatformProxyFailed), None;
      }
      var read, state := CurrentState();
      if !read {
        return Error(PlatformProxyFailed), None;
      }
      if !Matches(state, found.value) {
        var _ := DeleteProxyOwner();
        return Success, None;
      }
      return Success, found;
    }

    method RestoreCapturedProxy(record: ProxyRecord) returns (result: Result)
      requires Valid() && record.snapshot == baseline && record.qkboxOwned && (writer.Foreign? ==> Mine())
      requires hasProxy && (Owned(proxyOwner) ==> proxyOwner.value.snapshot == record.snapshot)
      modifies this`os, this`overwrote, this`writer, this`proxyOwner, this`crashPoints
      ensures Valid()
      ensures result in {Success, Error(PlatformProxyFailed)} && (Calm(weather) ==> result == Success)
      ensures result == Success ==> os == record.snapshot && writer == Restored && proxyOwner in {None, old(proxyOwner)}
      ensures Works(weather, PutBack) ==> result == Success
      ensures result == Success && Works(weather, DeleteOwner) ==> proxyOwner.None?
      ensures result != Success ==> os == old(os) && writer == old(writer) && proxyOwner == old(proxyOwner)
      ensures overwrote == old(overwrote)
    {
      var restored := Restore(record.snapshot);
      if !restored {
        return Error(PlatformProxyFailed);
      }
      var _ := DeleteProxyOwner();
      return Success;
    }

    /** Capture, and off with what was captured. */
    method ClearProxy() returns (result: Result, record: Option<ProxyRecord>)
      requires Valid()
      modifies this`os, this`overwrote, this`writer, this`proxyOwner, this`crashPoints
      ensures Valid() && overwrote == old(overwrote)
      ensures result in {Success, Error(PlatformProxyFailed)} && (Calm(weather) ==> result == Success)
      ensures result == Success ==>
                && record == old(CapturedRecord()) && !writer.Applied?
                && os == (if old(Captured()) then old(proxyOwner).value.snapshot else old(os))
                && (old(Captured()) ==> writer == Restored)
      ensures result != Success ==>
                os == old(os) && writer == old(writer) && (old(Captured()) ==> proxyOwner == old(proxyOwner))
      ensures proxyOwner in {None, old(proxyOwner)}
      ensures !hasProxy ==> proxyOwner == old(proxyOwner)
      ensures !Owned(old(proxyOwner)) ==> proxyOwner == old(proxyOwner) && crashPoints == old(crashPoints)
      ensures result == Success && Works(weather, DeleteOwner) && hasProxy && Owned(old(proxyOwner)) ==>
                proxyOwner.None?
    {
      result, record := CaptureOwnedProxy();
      if result == Success && record.Some? {
        result := RestoreCapturedProxy(record.value);
      }
    }

    /** A captured proxy, put on the first listener of the new runtime with its snapshot kept. */
    predicate Rebound(record: ProxyRecord)
      reads this
    {
      && engine.Started? && engine.runtime.listeners != []
      && PointsAt(os, engine.runtime.listeners[0])
      && proxyOwner == Some(record.(addr := engine.runtime.listeners[0].addr, port := engine.runtime.listeners[0].port))
    }

    method BindCapturedProxyToRuntime(record: ProxyRecord) returns (result: Result)
      requires Valid() && hasProxy && record.qkboxOwned && record.snapshot == baseline
      requires writer == Restored && os == baseline
      modifies this`os, this`overwrote, this`writer, this`proxyOwner, this`crashPoints, this`deadSeen
      ensures Valid() && deadSeen == old(deadSeen)
      ensures result == Success ==>
                && Rebound(record)
                && writer == Applied(engine.runtime.listeners[0].addr, engine.runtime.listeners[0].port)
      ensures result != Success ==> os == baseline && writer == Restored && result.error.stage.None?
      ensures Calm(weather) && engine.Started? ==>
                result == if engine.runtime.listeners != [] then Success else Error(PlatformProxyNoListener)
      ensures Down(weather, ApplySettings) ==> result != Success
      ensures result != Success && UndoWorks(weather) ==>
                proxyOwner in {None, old(proxyOwner)}
      ensures overwrote == old(overwrote)
    {
      var available := Available();
      if !available {
        return Error(PlatformProxyFailed);
      }
      var info, listeners := ListenerInfo();
      if info != Success {
        return info;
      }
      if listeners == [] {
        return Error(PlatformProxyNoListener);
      }
      var target := listeners[0];
      result := PutOn(record.(addr := target.addr, port := target.port));
    }

    method RestartOldRuntime(oldID: string) returns (failed: Option<RollbackStage>)
      requires engine.Idle? && !writer.Applied?
      modifies this`engine, this`deadSeen, this`prepared
      ensures deadSeen == old(deadSeen)
      ensures failed in {None, Some(LoadOldProfile), Some(PrepareOldProfile), Some(StartOldRuntime)}
      ensures failed.Some? ==> engine.Idle?
      ensures failed.None? ==>
                Usable(profiles, oldID) && engine == Started(Runtime(oldID, profiles[oldID].listeners))
      ensures Calm(weather) ==> failed == if Usable(profiles, oldID) then None else Some(LoadOldProfile)
    {
      var loaded, profile := LoadTarget(oldID);
      if loaded != Success {
        return Some(LoadOldProfile);
      }
      var granted := PrepareCapabilities(oldID);
      if !granted {
        return Some(PrepareOldProfile);
      }
      var started := StartEngine(oldID, profile);
      return if started == Success then None else Some(StartOldRuntime);
    }

    // ----- Where an activation ends -----

    function Target(id: string): Runtime
      reads this
      requires id in profiles
    {
      Runtime(id, profiles[id].listeners)
    }

    /** The engine after a failed activation: back on the old profile when it ran, or where it got stuck. */
    predicate EngineLeft(stage: Option<RollbackStage>, target: Runtime, wasRunning: bool, oldID: string)
      reads this
    {
      match stage
      case None =>
        if wasRunning && oldID != "" then Usable(profiles, oldID) && engine == Started(Target(oldID)) else engine.Idle?
      case Some(RestoreProxy) => engine == Started(target)
      case Some(StopNewRuntime) => engine == Fatal(target)
      case Some(_) => wasRunning && oldID != "" && engine.Idle?
    }

    /** The proxy after a failed activation: a captured one is off, unless taking it off was what failed. */
    predicate ProxyLeft(stage: Option<RollbackStage>, captured: Option<ProxyRecord>)
      reads this
    {
      if stage == Some(RestoreProxy) then captured.Some? && Rebound(captured.value)
      else !writer.Applied? && (captured.Some? ==> os == captured.value.snapshot)
    }

    /** A failure past the stop of the old runtime. */
    predicate Left(stage: Option<RollbackStage>, id: string, wasRunning: bool, oldID: string,
                   captured: Option<ProxyRecord>)
      reads this
    {
      Usable(profiles, id) && EngineLeft(stage, Target(id), wasRunning, oldID) && ProxyLeft(stage, captured)
    }

    /** A failure up to that stop: nothing has changed, or the stop itself has failed with the proxy off. */
    predicate NotSwitched(was: EngineView, shown: OsProxy, captured: Option<ProxyRecord>)
      reads this
    {
      || (engine == was && os == shown && (captured.Some? ==> proxyOwner == captured))
      || (was.Started? && engine == Fatal(was.runtime) && ProxyLeft(None, captured))
    }

    predicate Activated(id: string, captured: Option<ProxyRecord>)
      reads this
    {
      && activeProfileID == id && Usable(profiles, id) && engine == Started(Target(id))
      && (captured.Some? ==> Rebound(captured.value))
    }

    /** When nothing fails, only a proxy that the new runtime has no listener for stands in the way. */
    predicate CalmEnd(result: Result, captured: Option<ProxyRecord>, id: string, wasRunning: bool, oldID: string)
      reads this
      requires id in profiles
    {
      if captured.Some? && profiles[id].listeners == [] then
        && result.Failure? && result.error.code == PlatformProxyNoListener
        && result.error.stage ==
           if wasRunning && oldID != "" && !Usable(profiles, oldID) then Some(LoadOldProfile) else None
      else result == Success
    }

    /** Capture, off with what was captured, and stop the old runtime. */
    method StandDown() returns (result: Result, record: Option<ProxyRecord>)
      requires Valid() && !engine.Fatal?
      modifies this`engine, this`os, this`overwrote, this`writer, this`proxyOwner, this`crashPoints, this`deadSeen
      ensures Valid() && overwrote == old(overwrote) && deadSeen == old(deadSeen)
      ensures old(NoDeadProxy()) ==> NoDeadProxy()
      ensures Calm(weather) ==> result == Success
      ensures result == Success ==>
                && engine.Idle? && !writer.Applied? && record == old(CapturedRecord())
                && os == (if old(Captured()) then old(proxyOwner).value.snapshot else old(os))
                && (old(Captured()) ==> writer == Restored)
      ensures result != Success ==>
                result.error.stage.None? && NotSwitched(old(engine), old(os), old(CapturedRecord()))
      ensures !old(Captured()) ==> os == old(os)
      ensures proxyOwner in {None, old(proxyOwner)} && (!hasProxy ==> proxyOwner == old(proxyOwner))
      ensures !Owned(old(proxyOwner)) ==> proxyOwner == old(proxyOwner) && crashPoints == old(crashPoints)
      ensures result == Success && Works(weather, DeleteOwner) && hasProxy && Owned(old(proxyOwner)) ==>
                proxyOwner.None?
    {
      result, record := ClearProxy();
      if result == Success && engine.Started? {
        result := StopEngine();
      }
    }

    /** The engine's part of the undo, with no proxy of qkbox on. */
    method BackToOldRuntime(target: Runtime, oldID: string, wasRunning: bool, newStarted: bool, original: ErrorCode)
      returns (result: Result)
      requires Valid() && !writer.Applied?
      requires engine == if newStarted then Started(target) else Idle
      modifies this`engine, this`deadSeen, this`prepared
      ensures deadSeen == old(deadSeen) && result.Failure? && result.error.code == original
      ensures EngineLeft(result.error.stage, target, wasRunning, oldID)
      ensures result.error.stage != Some(RestoreProxy) && (result.error.stage == Some(StopNewRuntime) ==> newStarted)
      ensures Calm(weather) ==>
                result.error.stage ==
                if wasRunning && oldID != "" && !Usable(profiles, oldID) then Some(LoadOldProfile) else None
    {
      if newStarted {
        var stopped := StopEngine();
        if stopped != Success {
          return AttachRollbackError(original, StopNewRuntime);
        }
      }
      if wasRunning && oldID != "" {
        var failed := RestartOldRuntime(oldID);
        if failed.Some? {
          return AttachRollbackError(original, failed.value);
        }
      }
      return Error(original);
    }

    /** Undo of an activation that has passed the stop of the old runtime. */
    method RollbackActivation(target: Runtime, oldID: string, wasRunning: bool, record: Option<ProxyRecord>,
                              newStarted: bool, rebound: bool, original: ErrorCode)
      returns (result: Result)
      requires Valid() && engine == if newStarted then Started(target) else Idle
      requires rebound ==>
                 && newStarted && hasProxy && record.Some? && record.value.qkboxOwned
                 && record.value.snapshot == baseline && Rebound(record.value) && NoDeadProxy()
      requires !rebound ==> !writer.Applied?
      modifies this`engine, this`os, this`overwrote, this`writer, this`proxyOwner, this`crashPoints
      modifies this`deadSeen, this`prepared
      ensures Valid() && NoDeadProxy() && deadSeen == old(deadSeen)
      ensures result.Failure? && result.error.code == original
      ensures EngineLeft(result.error.stage, target, wasRunning, oldID)
      ensures result.error.stage == Some(RestoreProxy) ==> rebound && engine == old(engine) && Now() == old(Now())
      ensures result.error.stage == Some(StopNewRuntime) ==> newStarted
      ensures result.error.stage != Some(RestoreProxy) ==>
                && !writer.Applied?
                && os == (if rebound then record.value.snapshot else old(os))
                && proxyOwner in {None, old(proxyOwner)}
      ensures rebound && UndoWorks(weather) ==> proxyOwner.None?
      ensures Calm(weather) ==>
                result.error.stage ==
                if wasRunning && oldID != "" && !Usable(profiles, oldID) then Some(LoadOldProfile) else None
      ensures overwrote == old(overwrote)
      ensures !rebound ==> crashPoints == old(crashPoints) && proxyOwner == old(proxyOwner)
    {
      if rebound {
        var restored := RestoreCapturedProxy(record.value);
        if restored != Success {
          return AttachRollbackError(original, RestoreProxy);
        }
      }
      result := BackToOldRuntime(target, oldID, wasRunning, newStarted, original);
    }

    /** Rebind and persist, with the new runtime started and its proxy captured. */
    method SettleProxy(id: string, oldID: string, wasRunning: bool, record: ProxyRecord)
      returns (result: Result)
      requires Valid() && Usable(profiles, id) && engine == Started(Target(id)) && !writer.Applied?
      requires hasProxy && record.qkboxOwned && record.snapshot == baseline == os && writer == Restored
      modifies this`engine, this`os, this`overwrote, this`writer, this`proxyOwner, this`crashPoints
      modifies this`activeProfileID, this`deadSeen, this`prepared
      ensures Valid() && NoDeadProxy() && deadSeen == old(deadSeen) && overwrote == old(overwrote)
      ensures result != Success && old(proxyOwner).None? && UndoWorks(weather) ==> proxyOwner.None?
      ensures result == Success ==> Activated(id, Some(record))
      ensures result != Success ==>
                activeProfileID == old(activeProfileID) && Left(result.error.stage, id, wasRunning, oldID, Some(record))
      ensures Calm(weather) ==> CalmEnd(result, Some(record), id, wasRunning, oldID)
    {
      result := BindCapturedProxyToRuntime(record);
      if result != Success {
        result := RollbackActivation(Target(id), oldID, wasRunning, Some(record), true, false, result.error.code);
        return;
      }
      var failed := Fails(StoreActiveID);
      if failed {
        result := RollbackActivation(Target(id), oldID, wasRunning, Some(record), true, true, Internal);
        return;
      }
      activeProfileID := id;
      crashPoints := crashPoints + [Now()];
    }

    /** Rebind and persist, with the new runtime started. */
    method Settle(id: string, oldID: string, wasRunning: bool, record: Option<ProxyRecord>)
      returns (result: Result)
      requires Valid() && Usable(profiles, id) && engine == Started(Target(id)) && !writer.Applied?
      requires record.Some? ==>
                 && hasProxy && record.value.qkboxOwned && record.value.snapshot == baseline
                 && os == baseline && writer == Restored
      modifies this`engine, this`os, this`overwrote, this`writer, this`proxyOwner, this`crashPoints
      modifies this`activeProfileID, this`deadSeen, this`prepared
      ensures Valid() && NoDeadProxy() && deadSeen == old(deadSeen) && overwrote == old(overwrote)
      ensures record.None? ==> os == old(os) && proxyOwner == old(proxyOwner)
      ensures result != Success && old(proxyOwner).None? && UndoWorks(weather) ==> proxyOwner.None?
      ensures result == Success ==> Activated(id, record)
      ensures result != Success ==>
                activeProfileID == old(activeProfileID) && Left(result.error.stage, id, wasRunning, oldID, record)
      ensures Calm(weather) ==> CalmEnd(result, record, id, wasRunning, oldID)
      ensures record.None? ==> crashPoints == old(crashPoints) || crashPoints == old(crashPoints) + [Now()]
    {
      if record.Some? {
        result := SettleProxy(id, oldID, wasRunning, record.value);
        return;
      }
      var failed := Fails(StoreActiveID);
      if failed {
        result := RollbackActivation(Target(id), oldID, wasRunning, record, true, false, Internal);
        return;
      }
      activeProfileID := id;
      crashPoints := crashPoints + [Now()];
      return Success;
    }

    /** Prepare, start, rebind and persist, with the old runtime stopped and the captured proxy off. */
    method StartTarget(id: string, profile: Profile, oldID: string, wasRunning: bool, record: Option<ProxyRecord>)
      returns (result: Result)
      requires Valid() && engine.Idle? && !writer.Applied? && Usable(profiles, id) && profile == profiles[id]
      requires record.Some? ==>
                 && hasProxy && record.value.qkboxOwned && record.value.snapshot == baseline
                 && os == baseline && writer == Restored
      modifies this`engine, this`os, this`overwrote, this`writer, this`proxyOwner, this`crashPoints
      modifies this`activeProfileID, this`deadSeen, this`prepared
      ensures Valid() && NoDeadProxy() && deadSeen == old(deadSeen) && overwrote == old(overwrote)
      ensures record.None? ==> os == old(os) && proxyOwner == old(proxyOwner)
      ensures result != Success && old(proxyOwner).None? && UndoWorks(weather) ==> proxyOwner.None?
      ensures result == Success ==> Activated(id, record)
      ensures result != Success ==>
                activeProfileID == old(activeProfileID) && Left(result.error.stage, id, wasRunning, oldID, record)
      ensures Calm(weather) ==> CalmEnd(result, record, id, wasRunning, oldID)
      ensures record.None? ==> crashPoints == old(crashPoints) || crashPoints == old(crashPoints) + [Now()]
    {
      var granted := PrepareCapabilities(id);
      if !granted {
        result := RollbackActivation(Target(id), oldID, wasRunning, record, false, false, PrepareFailed);
        return;
      }
      result := StartEngine(id, profile);
      if result != Success {
        result := RollbackActivation(Target(id), oldID, wasRunning, record, false, false, result.error.code);
        return;
      }
      result := Settle(id, oldID, wasRunning, record);
    }

    /**
      From the capture of the proxy on, with the target loaded and the engine known to be idle or started.
      `committed` says that the old runtime, if there was one, has been stopped.
     */
    method SwitchTo(id: string, profile: Profile, oldID: string) returns (result: Result, ghost committed: bool)
      requires Valid() && !engine.Fatal? && Usable(profiles, id) && profile == profiles[id]
      requires oldID == activeProfileID
      modifies this`engine, this`os, this`overwrote, this`writer, this`proxyOwner, this`crashPoints
      modifies this`activeProfileID, this`deadSeen, this`prepared
      ensures Valid() && deadSeen == old(deadSeen) && (old(NoDeadProxy()) || committed ==> NoDeadProxy())
      ensures !old(Captured()) ==> os == old(os) && proxyOwner in {None, old(proxyOwner)}
      ensures result == Success ==> committed && Activated(id, old(CapturedRecord()))
      ensures result != Success ==> activeProfileID == old(activeProfileID)
      ensures result != Success && !committed ==>
                result.error.stage.None? && NotSwitched(old(engine), old(os), old(CapturedRecord()))
      ensures result != Success && committed ==>
                Left(result.error.stage, id, old(engine).Started?, oldID, old(CapturedRecord()))
      ensures Calm(weather) ==>
                committed && CalmEnd(result, old(CapturedRecord()), id, old(engine).Started?, oldID)
      // No ownership survives the settings of another program, nor a failure, unless an undo fails too.
      ensures committed && !old(Captured()) && Works(weather, DeleteOwner) ==>
                proxyOwner == if hasProxy && Owned(old(proxyOwner)) then None else old(proxyOwner)
      ensures result != Success && committed && old(Captured()) && UndoWorks(weather) ==> proxyOwner.None?
      ensures overwrote == old(overwrote)
      ensures !Owned(old(proxyOwner)) ==>
                crashPoints == old(crashPoints) || crashPoints == old(crashPoints) + [Now()]
    {
      committed := false;
      var wasRunning := engine.Started?;
      var record;
      result, record := StandDown();
      if result != Success {
        return;
      }
      committed := true;
      result := StartTarget(id, profile, oldID, wasRunning, record);
    }

    /**
      Activation is all or reported. Success: the new id is stored, its runtime runs and a captured proxy
      is rebound to it. Failure keeps the stored id. Without a rollback stage the engine is untouched, or
      Fatal on the old runtime because its own stop failed, or back on the stored profile exactly when it
      ran before and that id was not empty. With a rollback stage the stage says where it got stuck.
     */
    method ActivateProfile(id: string) returns (result: Result, ghost committed: bool)
      requires Valid()
      modifies this`engine, this`os, this`overwrote, this`writer, this`proxyOwner, this`baseline, this`crashPoints
      modifies this`activeProfileID, this`deadSeen, this`prepared
      ensures baseline == GoesBackTo(old(View()))
      ensures Valid() && deadSeen == old(deadSeen) && (old(NoDeadProxy()) || committed ==> NoDeadProxy())
      ensures !old(Captured()) ==> os == old(os) && proxyOwner in {None, old(proxyOwner)}
      ensures result == Success ==> committed && Activated(id, old(CapturedRecord()))
      ensures result != Success ==> activeProfileID == old(activeProfileID)
      ensures result != Success && !committed ==>
                result.error.stage.None? && NotSwitched(old(engine), old(os), old(CapturedRecord()))
      ensures result != Success && committed ==>
                Left(result.error.stage, id, old(engine).Started?, old(activeProfileID), old(CapturedRecord()))
      ensures Calm(weather) || (result == Success && Works(weather, DeleteOwner)) ==>
                ActivateDone(hasProxy, old(View()), id, result, View())
      // No ownership survives the settings of another program, nor a failure, unless an undo fails too.
      ensures committed && !old(Captured()) && Works(weather, DeleteOwner) ==>
                proxyOwner == if hasProxy && Owned(old(proxyOwner)) then None else old(proxyOwner)
      ensures result != Success && committed && old(Captured()) && UndoWorks(weather) ==> proxyOwner.None?
      ensures overwrote == old(overwrote)
      ensures !Owned(old(proxyOwner)) ==> !Owned(proxyOwner) && Undisturbed(crashPoints, os)
    {
      Begin();
      committed := false;
      if id == "" {
        return Error(ProfileNotFound), false;
      }
      var failed := Fails(LoadActiveID);
      if failed {
        return Error(Internal), false;
      }
      var oldID := activeProfileID;
      failed := Fails(LoadProfile);
      if failed {
        return Error(Internal), false;
      }
      if id !in profiles {
        return Error(ProfileNotFound), false;
      }
      var profile;
      result, profile := LoadTarget(id);
      if result != Success {
        return;
      }
      if engine.Fatal? {
        return Error(EngineBusy), false;
      }
      result, committed := SwitchTo(id, profile, oldID);
    }

    // ----- Shutdown, crash and restart -----

    /**
      The engine first, then the proxy; what fails is only warned about. So a shutdown passes through a
      dead proxy exactly when it stops an engine while a proxy that qkbox has set is on.
     */
    method Close() returns (result: Result)
      requires Valid()
      modifies this`engine, this`os, this`overwrote, this`writer, this`proxyOwner, this`baseline, this`crashPoints
      modifies this`deadSeen
      ensures deadSeen == (old(deadSeen) || (!old(engine).Idle? && old(writer).Applied?))
      ensures baseline == GoesBackTo(old(View()))
      ensures Valid() && !engine.Started?
      ensures !old(Mine()) ==> os == old(os)
      ensures result == Success <==> engine.Idle?
      ensures Calm(weather) ==> result == Success && !writer.Applied? && (hasProxy ==> ProxyOff(old(View()), View()))
      ensures overwrote == old(overwrote)
      ensures !Owned(old(proxyOwner)) ==> !Owned(proxyOwner) && Undisturbed(crashPoints, os)
      ensures proxyOwner in {None, old(proxyOwner)}
    {
      Begin();
      result := StopEngine();
      if result == Error(EngineNotStarted) {
        result := Success;
      }
      var _ := RestoreProxyIfOwned();
    }

    /** repairStaleProxy, at the start of a new process. */
    method RepairStaleProxy() returns (repaired: bool)
      requires Valid()
      modifies this`os, this`overwrote, this`writer, this`proxyOwner, this`crashPoints
      ensures Valid()
      ensures !old(Mine()) ==> os == old(os)
      ensures repaired ==> !writer.Applied?
      ensures repaired && hasProxy && old(Mine()) ==> os == old(proxyOwner).value.snapshot && writer == Restored
      ensures !repaired ==> os == old(os) && writer == old(writer) && proxyOwner == old(proxyOwner)
      ensures Calm(weather) ==> repaired && (hasProxy ==> !Owned(proxyOwner))
      ensures overwrote == old(overwrote)
      ensures Down(weather, AskPlatform) && hasProxy ==> !repaired
      ensures proxyOwner in {None, old(proxyOwner)}
    {
      if !hasProxy {
        return true;
      }
      var available := Available();
      if !available {
        return false;
      }
      var result := RestoreIfMine(false);
      return result == Success;
    }

    function Point(k: nat): CrashPoint
      reads this
    {
      if k < |crashPoints| then crashPoints[k] else Now()
    }

    /**
      The process dies at a point that this request has passed, or now, and a new one repairs. Whatever
      qkbox had set is gone and the settings of the user are back.
     */
    method CrashAndRestart(k: nat) returns (repaired: bool)
      requires Valid()
      modifies this
      ensures Valid() && engine.Idle? && !deadSeen && weather == old(weather) && overwrote == old(overwrote)
      ensures Owned(proxyOwner) ==> proxyOwner.value.snapshot == old(baseline)
      ensures var p := old(Point(k));
              && activeProfileID == p.activeProfileID && profiles == p.profiles
              && (p.writer.Applied? && repaired ==> os == p.baseline && writer == Restored)
              && (!repaired ==> os == p.os && proxyOwner == p.record && writer == p.writer)
              && (!(Owned(p.record) && Matches(p.os, p.record.value)) ==> os == p.os)
              && proxyOwner in {None, p.record}
              && (NeverDead() <==> !(p.writer.Applied? && !repaired))
      ensures Calm(weather) ==> repaired && (hasProxy ==> !Owned(proxyOwner))
      ensures Outage(weather) && hasProxy ==> !repaired
    {
      Die(Point(k));
      repaired := RepairStaleProxy();
    }

    /** What is left when the process dies there: the settings, the database and nothing else. */
    method Die(p: CrashPoint)
      requires CrashSafe(p) && (!hasProxy ==> !p.writer.Applied?)
      modifies this
      ensures Valid() && Now() == p && engine.Idle? && !deadSeen
      ensures weather == old(weather) && overwrote == old(overwrote)
    {
      engine, deadSeen, prepared, crashPoints := Idle, false, None, [];
      os, proxyOwner, activeProfileID, profiles := p.os, p.record, p.activeProfileID, p.profiles;
      writer, baseline := p.writer, p.baseline;
    }
  }

  // ----- Sessions -----

  /** One request, and the points it passes. */
  method Handle(s: Service, r: Request) returns (reply: Result)
    requires s.Valid()
    modifies s
    ensures s.Valid() && (old(s.NeverDead()) ==> s.NeverDead()) && s.weather == old(s.weather)
    ensures s.baseline == GoesBackTo(old(s.View()))
    // What a request does when nothing fails it does whenever it succeeds, but for a record that stays.
    ensures Calm(s.weather) || (reply == Success && Works(s.weather, DeleteOwner)) ==>
              Done(s.hasProxy, old(s.View()), r, reply, s.View())
    // Settings of other programs survive everything but an explicit enable.
    ensures r != SetSystemProxy(true) ==> s.overwrote == old(s.overwrote) && (!old(s.Mine()) ==> s.os == old(s.os))
    ensures r != SetSystemProxy(true) && !Owned(old(s.proxyOwner)) ==>
              !Owned(s.proxyOwner) && Undisturbed(s.crashPoints, s.os)
  {
    match r {
      case SetSystemProxy(enabled) =>
        reply := s.PlatformSetSystemProxyEnabled(enabled);
      case Start =>
        reply := s.EngineStart();
      case Stop =>
        reply := s.EngineStop();
      case Activate(id) =>
        ghost var committed;
        reply, committed := s.ActivateProfile(id);
      case EditProfiles(profiles, clearsActive) =>
        s.Begin();
        s.profiles := profiles;
        if clearsActive {
          s.activeProfileID := "";
        }
        reply := Success;
    }
  }

  /**
    One step. `clean` says that a restart, if there was one, repaired what it found; `dead` that the process
    passed a point, up to its end in this step, at which a proxy of qkbox pointed at no running engine.
   */
  method Perform(s: Service, step: Step) returns (reply: Result, clean: bool, dead: bool)
    requires s.Valid()
    modifies s
    ensures s.Valid() && s.weather == if step.Turn? then step.weather else old(s.weather)
    ensures Follows(s.hasProxy, old(s.View()), step, reply, s.View())
    ensures old(s.NeverDead()) && clean ==> s.NeverDead()
    ensures Restarts(step) && clean ==> s.NeverDead()
    ensures !Restarts(step) || Calm(old(s.weather)) ==> clean
    ensures old(s.NeverDead()) ==>
              (dead <==> step.ShutDown? && !old(s.engine).Idle? && old(s.writer).Applied?)
    ensures !Enables(step) ==> s.overwrote == old(s.overwrote)
  {
    reply, clean := Success, true;
    match step {
      case Served(request) =>
        reply := Handle(s, request);
        dead := s.deadSeen;
      case Interrupted(request, at) =>
        var _ := Handle(s, request);
        dead := s.deadSeen;
        clean := s.CrashAndRestart(at);
      case ShutDown =>
        var _ := s.Close();
        dead := s.deadSeen;
        clean := s.CrashAndRestart(|s.crashPoints|);
      case ForeignWrite(os) =>
        s.os, s.writer := os, Foreign;
        dead := s.deadSeen;
      case Turn(weather) =>
        s.weather := weather;
        dead := s.deadSeen;
    }
  }

  /** Every restart from step `from` up to step `to` has repaired what it found. */
  predicate CleanBetween(clean: seq<bool>, from: nat, to: nat) {
    forall i | from <= i < to && i < |clean| :: clean[i]
  }

  /** Of the steps that start on a repaired state, only shutdowns pass a dead proxy. */
  ghost predicate DeadInShutDownsOnly(steps: seq<Step>, clean: seq<bool>, dead: seq<bool>, from: nat) {
    |steps| == |clean| == |dead|
    && forall i: nat | from <= i < |steps| && CleanBetween(clean, from, i) :: dead[i] ==> steps[i].ShutDown?
  }

  lemma CleanGrows(clean: seq<bool>, one: bool, from: nat)
    requires from <= |clean|
    ensures CleanBetween(clean + [one], from, |clean| + 1) <==> CleanBetween(clean, from, |clean|) && one
    ensures forall i: nat | i <= |clean| :: CleanBetween(clean + [one], from, i) == CleanBetween(clean, from, i)
  {
    var more := clean + [one];
    assert more[|clean|] == one && forall i | 0 <= i < |clean| :: more[i] == clean[i];
  }

  lemma DeadGrows(steps: seq<Step>, clean: seq<bool>, dead: seq<bool>, from: nat, step: Step, one: bool, passed: bool)
    requires from <= |steps| && DeadInShutDownsOnly(steps, clean, dead, from)
    requires CleanBetween(clean, from, |steps|) && passed ==> step.ShutDown?
    ensures DeadInShutDownsOnly(steps + [step], clean + [one], dead + [passed], from)
  {
    CleanGrows(clean, one, from);
    forall i: nat | from <= i <= |steps| && CleanBetween(clean + [one], from, i)
      ensures (dead + [passed])[i] ==> (steps + [step])[i].ShutDown?
    {
      assert CleanBetween(clean, from, i);
    }
  }

  /** The service has been followed since step `from`, which found it on a repaired state. */
  ghost predicate Followed(s: Service, steps: seq<Step>, clean: seq<bool>, dead: seq<bool>, from: nat)
    reads s
  {
    && from <= |steps| && DeadInShutDownsOnly(steps, clean, dead, from)
    && (CleanBetween(clean, from, |steps|) ==> s.NeverDead())
  }

  /** One more step of a session, and what it adds to every stretch that is followed. */
  method Advance(s: Service, steps: seq<Step>, step: Step, clean: seq<bool>, dead: seq<bool>)
    returns (reply: Result, clean': seq<bool>, dead': seq<bool>)
    requires s.Valid() && |clean| == |dead| == |steps|
    modifies s
    ensures s.Valid() && |clean'| == |dead'| == |steps| + 1 && clean' == clean + [clean'[|steps|]]
    ensures forall j: nat | j <= |steps| && old(Followed(s, steps, clean, dead, j)) ::
              Followed(s, steps + [step], clean', dead', j)
    ensures Restarts(step) && clean'[|steps|] ==> Followed(s, steps + [step], clean', dead', |steps| + 1)
    ensures !Restarts(step) ==> clean'[|steps|]
    ensures !Enables(step) ==> s.overwrote == old(s.overwrote)
    ensures Follows(s.hasProxy, old(s.View()), step, reply, s.View())
  {
    ghost var fit := iset j: nat | j <= |steps| && Followed(s, steps, clean, dead, j);
    var one, passed;
    reply, one, passed := Perform(s, step);
    clean', dead' := clean + [one], dead + [passed];
    forall j | j in fit
      ensures Followed(s, steps + [step], clean', dead', j)
    {
      DeadGrows(steps, clean, dead, j, step, one, passed);
      CleanGrows(clean, one, j);
    }
  }

  /**
    Any session: requests, some cut off by a crash at any of their points, shutdowns, foreign writes and
    failures. From the start, or from any restart whose repair succeeded, and across every later one that
    does: only a shutdown passes a point at which a proxy that qkbox has set points at no running engine.
    Settings of other programs that differ from the record are overwritten by nothing but an enable. The
    session is one that ProxySessions speaks of, so what is proved there of stretches of ownership holds.
   */
  method Session(s: Service, steps: seq<Step>)
    returns (clean: seq<bool>, dead: seq<bool>, replies: seq<Result>, ghost moments: seq<Moment>)
    requires s.Valid()
    modifies s
    ensures s.Valid() && |clean| == |dead| == |steps|
    ensures Told(s.hasProxy, moments, steps, replies)
    ensures moments[0] == old(s.View()) && moments[|steps|] == s.View()
    ensures old(s.NeverDead()) ==>
              && DeadInShutDownsOnly(steps, clean, dead, 0)
              && (CleanBetween(clean, 0, |steps|) ==> s.NeverDead())
    ensures forall j: nat | j < |steps| && Restarts(steps[j]) && clean[j] ::
              && DeadInShutDownsOnly(steps, clean, dead, j + 1)
              && (CleanBetween(clean, j + 1, |steps|) ==> s.NeverDead())
    ensures forall i | 0 <= i < |steps| :: !Restarts(steps[i]) ==> clean[i]
    ensures (forall i | 0 <= i < |steps| :: !Enables(steps[i])) ==>
              && s.overwrote == old(s.overwrote)
              && (!Owned(old(s.proxyOwner)) ==> s.os == LastWritten(old(s.os), steps))
  {
    clean, dead, replies, moments := [], [], [], [s.View()];
    for n := 0 to |steps|
      invariant s.Valid() && |clean| == |dead| == n
      invariant Told(s.hasProxy, moments, steps[..n], replies)
      invariant moments[0] == old(s.View()) && moments[n] == s.View()
      invariant old(s.NeverDead()) ==> Followed(s, steps[..n], clean, dead, 0)
      invariant forall j: nat | j < n && Restarts(steps[j]) && clean[j] ::
                  Followed(s, steps[..n], clean, dead, j + 1)
      invariant forall i | 0 <= i < n :: !Restarts(steps[i]) ==> clean[i]
      invariant (forall i | 0 <= i < n :: !Enables(steps[i])) ==> s.overwrote == old(s.overwrote)
    {
      assert steps[..n + 1][..n] == steps[..n] && steps[..n + 1] == steps[..n] + [steps[n]];
      var reply;
      reply, clean, dead := Advance(s, steps[..n], steps[n], clean, dead);
      ToldThen(s.hasProxy, moments, steps[..n], replies, steps[n], reply, s.View());
      replies, moments := replies + [reply], moments + [s.View()];
    }
    assert steps[..|steps|] == steps;
    if !Owned(moments[0].record) && forall i | 0 <= i < |steps| :: !Enables(steps[i]) {
      UnownedIsForeign(s.hasProxy, moments, steps, replies, 0, |steps|);
      assert steps[0..|steps|] == steps;
    }
  }

  /**
    A start-up repair that failed leaves the proxy on the dead address of the last session. If the next
    runtime listens elsewhere, an enable that meets no failure at all reports success and leaves it there.
   */
  method EnableKeepsDeadProxy(s: Service) returns (result: Result)
    requires s.Valid() && s.hasProxy && Calm(s.weather)
    requires s.engine.Started? && s.engine.runtime.listeners != [] && s.PinnedElsewhere()
    modifies s
    ensures s.Valid() && s.engine == old(s.engine) && s.writer == old(s.writer) && s.weather == old(s.weather)
    ensures result == Success && s.os == old(s.os) && !PointsAt(s.os, s.engine.runtime.listeners[0])
    ensures old(s.writer.Applied?) ==> !s.NoDeadProxy()
  {
    result := s.PlatformSetSystemProxyEnabled(true);
  }

  /** A new service activates a profile and sets the proxy; it crashes, and the repair meets an outage. */
  method Strand(os: OsProxy, profile: Profile) returns (s: Service)
    requires profile.valid && profile.content != "" && profile.listeners != []
    ensures fresh(s) && s.Valid() && s.hasProxy && Calm(s.weather) && s.engine.Idle?
    ensures s.activeProfileID == "p" && s.Mine()
    ensures s.writer == Applied(profile.listeners[0].addr, profile.listeners[0].port)
  {
    AllCallsAgree(true);
    AllCallsAgree(false);
    s := new Service(true, os, map["p" := profile], AllCalls(true));
    var activated, _ := s.ActivateProfile("p");
    var enabled := s.PlatformSetSystemProxyEnabled(true);
    s.weather := AllCalls(false);
    var repaired := s.CrashAndRestart(|s.crashPoints|);
    s.weather := AllCalls(true);
  }

  /**
    How it comes to that, from a new service: activate, enable, a crash whose repair meets an outage, an
    edit that moves the first listener, start, and the enable.
   */
  method DeadProxyArises(os: OsProxy, before: Listener, after: Listener) returns (s: Service, result: Result)
    requires before != after
    ensures fresh(s) && s.Valid() && Calm(s.weather) && result == Success
    ensures s.engine.Started? && s.engine.runtime.listeners == [after]
    ensures s.writer == Applied(before.addr, before.port) && PointsAt(s.os, before) && !s.NoDeadProxy()
  {
    var profile := Profile("{}", true, [before]);
    s := Strand(os, profile);
    s.profiles := map["p" := profile.(listeners := [after])];
    var started := s.EngineStart();
    result := EnableKeepsDeadProxy(s);
  }
}
