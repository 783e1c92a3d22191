/**
  What each request does, seen from outside: the settings, the record, the engine and the profiles between
  two steps. And what follows for any sequence of steps, with failures, crashes and other programs in between.
 */
module ProxySessions {
  import opened Options
  import opened ProxyState

  datatype Request =
    | SetSystemProxy(enabled: bool)
    | Start
    | Stop
    | Activate(id: string)
    | EditProfiles(profiles: map<string, Profile>, clearsActive: bool)

  /** What can happen to the daemon and around it. */
  datatype Step =
    | Served(request: Request)
    | Interrupted(request: Request, at: nat)  // the process dies at one of the points of the request
    | ShutDown                                // and is started again later
    | ForeignWrite(os: OsProxy)
    | Turn(weather: Weather)

  predicate Restarts(step: Step) {
    step.Interrupted? || step.ShutDown?
  }

  predicate Enables(step: Step) {
    (step.Served? || step.Interrupted?) && step.request == SetSystemProxy(true)
  }

  /** The service between two steps. */
  datatype Moment = Moment(
    os: OsProxy, record: Option<ProxyRecord>, engine: EngineView,
    activeProfileID: string, profiles: map<string, Profile>, weather: Weather)

  /** The settings are those of qkbox. */
  predicate Shows(m: Moment) {
    Owned(m.record) && Matches(m.os, m.record.value)
  }

  /** The settings to go back to: those that were there when ownership was taken, or would be if it were now. */
  function GoesBackTo(m: Moment): OsProxy {
    if Owned(m.record) then m.record.value.snapshot else m.os
  }

  // ----- Requests that no failure meets -----

  /** The proxy taken off: qkbox's settings are replaced by the captured ones, others stay; nothing is owned. */
  predicate ProxyOff(was: Moment, now: Moment) {
    !Owned(now.record) && now.os == if Shows(was) then was.record.value.snapshot else was.os
  }

  /** The proxy put on, unless the settings already are those of the record. */
  predicate ProxyOn(was: Moment, l: Listener, now: Moment) {
    if Shows(was) then now.os == was.os && now.record == was.record
    else
      && PointsAt(now.os, l)
      && now.record == Some(ProxyRecord(true, GoesBackTo(was), l.addr, l.port))
  }

  predicate OnlyProxy(was: Moment, now: Moment) {
    now == was.(os := now.os, record := now.record)
  }

  predicate SwitchDone(hasProxy: bool, was: Moment, enabled: bool, reply: Result, now: Moment) {
    if !hasProxy then reply == Error(PlatformProxyUnsupported) && now == was
    else if !enabled then reply == Success && ProxyOff(was, now) && OnlyProxy(was, now)
    else if !was.engine.Started? then reply == Error(EngineNotStarted) && now == was
    else if was.engine.runtime.listeners == [] then reply == Error(PlatformProxyNoListener) && now == was
    else reply == Success && ProxyOn(was, was.engine.runtime.listeners[0], now) && OnlyProxy(was, now)
  }

  /** Why a profile cannot be run. */
  function TargetError(profiles: map<string, Profile>, id: string): ErrorCode
    requires !Usable(profiles, id)
  {
    if id !in profiles then ProfileNotFound
    else if profiles[id].content == "" then ProfileContentEmpty
    else ConfigValidationFailed
  }

  predicate StartDone(was: Moment, reply: Result, now: Moment) {
    var id := was.activeProfileID;
    if id == "" then reply == Error(EngineNoActiveProfile) && now == was
    else if !Usable(was.profiles, id) then reply == Error(TargetError(was.profiles, id)) && now == was
    else if was.engine.Started? then reply == Error(EngineAlreadyStarted) && now == was
    else if was.engine.Fatal? then reply == Error(EngineBusy) && now == was
    else reply == Success && now == was.(engine := Started(Runtime(id, was.profiles[id].listeners)))
  }

  predicate StopDone(hasProxy: bool, was: Moment, reply: Result, now: Moment) {
    && now == was.(os := now.os, record := now.record, engine := Idle)
    && reply == (if was.engine.Idle? then Error(EngineNotStarted) else Success)
    && if hasProxy then ProxyOff(was, now) else now.os == was.os && now.record == was.record
  }

  /** A captured proxy moves to the new runtime, settings of others stay and end the ownership they meet. */
  predicate ProxyMoved(hasProxy: bool, was: Moment, l: Listener, now: Moment) {
    if !hasProxy || !Owned(was.record) then now.os == was.os && now.record == was.record
    else if !Shows(was) then now.os == was.os && now.record.None?
    else PointsAt(now.os, l) && now.record == Some(was.record.value.(addr := l.addr, port := l.port))
  }

  /** The runtime that an undone activation goes back to. */
  predicate BackAt(was: Moment, stage: Option<RollbackStage>, engine: EngineView) {
    var id := was.activeProfileID;
    if !was.engine.Started? || id == "" then stage == None && engine == Idle
    else if !Usable(was.profiles, id) then stage == Some(LoadOldProfile) && engine == Idle
    else stage == None && engine == Started(Runtime(id, was.profiles[id].listeners))
  }

  predicate ActivateDone(hasProxy: bool, was: Moment, id: string, reply: Result, now: Moment) {
    if id == "" then reply == Error(ProfileNotFound) && now == was
    else if !Usable(was.profiles, id) then reply == Error(TargetError(was.profiles, id)) && now == was
    else if was.engine.Fatal? then reply == Error(EngineBusy) && now == was
    else
      var listeners := was.profiles[id].listeners;
      if hasProxy && Shows(was) && listeners == [] then
        && reply.Failure? && reply.error.code == PlatformProxyNoListener
        && BackAt(was, reply.error.stage, now.engine)
        && ProxyOff(was, now) && now == was.(os := now.os, record := now.record, engine := now.engine)
      else
        && reply == Success
        && ProxyMoved(hasProxy, was, if listeners == [] then Listener("", 0) else listeners[0], now)
        && now == was.(os := now.os, record := now.record, activeProfileID := id,
                       engine := Started(Runtime(id, listeners)))
  }

  predicate Done(hasProxy: bool, was: Moment, r: Request, reply: Result, now: Moment) {
    match r
    case SetSystemProxy(enabled) => SwitchDone(hasProxy, was, enabled, reply, now)
    case Start => StartDone(was, reply, now)
    case Stop => StopDone(hasProxy, was, reply, now)
    case Activate(id) => ActivateDone(hasProxy, was, id, reply, now)
    case EditProfiles(profiles, clearsActive) =>
      && reply == Success
      && now == was.(profiles := profiles, activeProfileID := if clearsActive then "" else was.activeProfileID)
  }

  // ----- Steps -----

  /** A step as seen from outside: in any weather, and when nothing has failed. */
  ghost predicate Follows(hasProxy: bool, was: Moment, step: Step, reply: Result, now: Moment) {
    && (Owned(now.record) ==> now.record.value.snapshot == GoesBackTo(was))
    && (!Enables(step) && !Owned(was.record) ==>
          !Owned(now.record) && now.os == if step.ForeignWrite? then step.os else was.os)
    && match step
       case Served(r) =>
         Calm(was.weather) || (reply == Success && Works(was.weather, DeleteOwner)) ==>
           Done(hasProxy, was, r, reply, now)
       case Interrupted(_, _) => now.engine == Idle && (Calm(was.weather) && hasProxy ==> !Owned(now.record))
       case ShutDown =>
         && now == was.(os := now.os, record := now.record, engine := Idle)
         && (Calm(was.weather) && hasProxy ==> ProxyOff(was, now))
       case ForeignWrite(os) => now == was.(os := os)
       case Turn(weather) => now == was.(weather := weather)
  }

  /** A session: what was there before, between and after its steps. */
  ghost predicate Told(hasProxy: bool, moments: seq<Moment>, steps: seq<Step>, replies: seq<Result>) {
    && |moments| == |steps| + 1 == |replies| + 1
    && forall i: nat | i < |steps| :: Follows(hasProxy, moments[i], steps[i], replies[i], moments[i + 1])
  }

  lemma ToldThen(
    hasProxy: bool, moments: seq<Moment>, steps: seq<Step>, replies: seq<Result>,
    step: Step, reply: Result, now: Moment)
    requires Told(hasProxy, moments, steps, replies) && Follows(hasProxy, moments[|steps|], step, reply, now)
    ensures Told(hasProxy, moments + [now], steps + [step], replies + [reply])
  {
  }

  /** The OS proxy when nobody but other programs has written it. */
  function LastWritten(os: OsProxy, steps: seq<Step>): OsProxy {
    if steps == [] then os
    else
      var last := steps[|steps| - 1];
      if last.ForeignWrite? then last.os else LastWritten(os, steps[..|steps| - 1])
  }

  // ----- Stretches of ownership -----

  /** Ownership from `first` to `last`, whatever the steps in between: one snapshot. */
  lemma {:induction false} SnapshotIsKept(
    hasProxy: bool, moments: seq<Moment>, steps: seq<Step>, replies: seq<Result>, first: nat, last: nat)
    requires Told(hasProxy, moments, steps, replies) && first <= last <= |steps|
    requires forall k: nat | first < k <= last :: Owned(moments[k].record)
    ensures GoesBackTo(moments[last]) == GoesBackTo(moments[first])
    decreases last
  {
    if first < last {
      SnapshotIsKept(hasProxy, moments, steps, replies, first, last - 1);
      assert Follows(hasProxy, moments[last - 1], steps[last - 1], replies[last - 1], moments[last]);
    }
  }

  /** Without ownership and without an enable the settings are those of the others. */
  lemma {:induction false} UnownedIsForeign(
    hasProxy: bool, moments: seq<Moment>, steps: seq<Step>, replies: seq<Result>, first: nat, last: nat)
    requires Told(hasProxy, moments, steps, replies) && first <= last <= |steps| && !Owned(moments[first].record)
    requires forall k: nat | first <= k < last :: !Enables(steps[k])
    ensures !Owned(moments[last].record) && moments[last].os == LastWritten(moments[first].os, steps[first..last])
    decreases last
  {
    if first < last {
      UnownedIsForeign(hasProxy, moments, steps, replies, first, last - 1);
      assert steps[first..last][..last - first - 1] == steps[first..last - 1];
      assert Follows(hasProxy, moments[last - 1], steps[last - 1], replies[last - 1], moments[last]);
    }
  }

  /**
    Ownership that begins with step `taken` and is still there at step `off`, a disable that no failure meets:
    the settings are again exactly those before `taken`, and nothing is owned. What happened in between does
    not matter: further enables, activations, restarts, failures, foreign writes that were taken back.
   */
  lemma DisableGoesBack(
    hasProxy: bool, moments: seq<Moment>, steps: seq<Step>, replies: seq<Result>, taken: nat, off: nat)
    requires Told(hasProxy, moments, steps, replies) && taken < off < |steps|
    requires !Owned(moments[taken].record) && forall k: nat | taken < k <= off :: Owned(moments[k].record)
    requires steps[off] == Served(SetSystemProxy(false))
    requires replies[off] == Success && Works(moments[off].weather, DeleteOwner)
    ensures !Owned(moments[off + 1].record)
    ensures moments[off + 1].os == if Shows(moments[off]) then moments[taken].os else moments[off].os
  {
    SnapshotIsKept(hasProxy, moments, steps, replies, taken, off);
    assert Follows(hasProxy, moments[off], steps[off], replies[off], moments[off + 1]);
  }

  /** The requests that look at the settings and let go of a record that these no longer show. */
  predicate Meets(step: Step, m: Moment) {
    || step == Served(SetSystemProxy(false)) || step == Served(Stop) || step.ShutDown?
    || (step.Served? && step.request.Activate? && step.request.id != ""
        && Usable(m.profiles, step.request.id) && !m.engine.Fatal?)
  }

  /** Settings that another program has written over those of qkbox end the ownership that meets them. */
  lemma ForeignSettingsEndOwnership(
    hasProxy: bool, moments: seq<Moment>, steps: seq<Step>, replies: seq<Result>, met: nat)
    requires Told(hasProxy, moments, steps, replies) && met < |steps| && hasProxy
    requires Calm(moments[met].weather) && Meets(steps[met], moments[met]) && !Shows(moments[met])
    ensures !Owned(moments[met + 1].record) && moments[met + 1].os == moments[met].os
  {
    assert Follows(hasProxy, moments[met], steps[met], replies[met], moments[met + 1]);
  }

  /**
    So what other programs have set is what comes back: settings that a request has met, or later ones,
    survive the next stretch of ownership from its first enable to its last disable.
   */
  lemma ForeignSettingsComeBack(
    hasProxy: bool, moments: seq<Moment>, steps: seq<Step>, replies: seq<Result>, met: nat, taken: nat, off: nat)
    requires Told(hasProxy, moments, steps, replies) && met < taken < off < |steps| && hasProxy
    requires Calm(moments[met].weather) && Meets(steps[met], moments[met]) && !Shows(moments[met])
    requires forall k: nat | met < k < taken :: !Enables(steps[k])
    requires forall k: nat | taken < k <= off :: Owned(moments[k].record)
    requires steps[off] == Served(SetSystemProxy(false)) && Shows(moments[off])
    requires replies[off] == Success && Works(moments[off].weather, DeleteOwner)
    ensures !Owned(moments[off + 1].record)
    ensures moments[off + 1].os == LastWritten(moments[met].os, steps[met + 1..taken])
  {
    ForeignSettingsEndOwnership(hasProxy, moments, steps, replies, met);
    UnownedIsForeign(hasProxy, moments, steps, replies, met + 1, taken);
    DisableGoesBack(hasProxy, moments, steps, replies, taken, off);
  }
}
