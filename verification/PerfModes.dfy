/**
 The sustained-performance, VR and launch hints of power/power-helper.c and power/power-8996.c: two
 mode flags that hand one indefinite perflock over to each other.

 The perflock library is not part of the repository.  It is taken to give out each handle once,
 and to ignore the release of a handle that is not held.  What it does with a handle that is held
 when it is passed to an acquire is a parameter: it may replace that lock, or add another.
 */
module PerfModes {

  const CPU0_MAX := 0x40804000
  const CPU2_MAX := 0x40804100
  const CPU0_MIN := 0x40800000
  const CPU2_MIN := 0x40800100
  const GPU_MIN := 0x42C24000
  const GPU_MAX := 0x42C20000
  const GPU_BUS_MIN := 0x42C28000

  // A request: which resource is set to what.
  type Resources = map<int, int>

  const SUSTAINED: Resources :=
    map[CPU0_MAX := 1209, CPU2_MAX := 1209, GPU_MIN := 133, GPU_MAX := 315, GPU_BUS_MIN := 7759]

  const SUSTAINED_AND_VR: Resources :=
    map[CPU0_MIN := 1209, CPU2_MIN := 1209, CPU0_MAX := 1209, CPU2_MAX := 1209,
        GPU_MIN := 315, GPU_MAX := 315, GPU_BUS_MIN := 7759]

  const VR: Resources :=
    map[CPU0_MAX := 1440, CPU2_MAX := 1440, CPU0_MIN := 1440, CPU2_MIN := 1440,
        GPU_MAX := 510, GPU_MIN := 510, GPU_BUS_MIN := 7759]

  const BACK_TO_SUSTAINED: Resources :=
    map[CPU0_MIN := 0, CPU2_MIN := 0, CPU0_MAX := 1209, CPU2_MAX := 1209,
        GPU_MIN := 133, GPU_MAX := 315, GPU_BUS_MIN := 0]

  // `held` are the library's indefinite locks, and `used` the handles it has given out so far.
  datatype State = State(
    sustained: bool, vr: bool, sustainedHandle: int, vrHandle: int, launchMode: bool, launchHandle: int,
    held: map<int, Resources>, used: set<int>)

  const INIT := State(false, false, 0, 0, false, -1, map[], {})

  // `on` is whether the hint comes with data, and `answer` what the library answers to an acquire.
  datatype Hint =
    | Sustained(on: bool, answer: int)
    | VrMode(on: bool, answer: int)
    | Launch(on: bool, answer: int)

  const FAILED := -1

  predicate Fresh(s: State, answer: int) { answer == FAILED || (answer > 0 && answer !in s.used) }

  function Release(s: State, handle: int): State { s.(held := s.held - {handle}) }

  function Acquire(swaps: bool, s: State, prior: int, answer: int, r: Resources): State {
    if answer == FAILED then s
    else s.(held := (if swaps then s.held - {prior} else s.held)[answer := r], used := s.used + {answer})
  }

  function EndLaunch(s: State): State {
    if s.launchMode then Release(s, s.launchHandle).(launchMode := false) else s
  }

  function OnSustained(swaps: bool, s: State, on: bool, answer: int): State {
    if on && !s.sustained then
      var (ready, r) :=
        if s.vr then (Release(s, s.vrHandle), SUSTAINED_AND_VR) else (EndLaunch(s), SUSTAINED);
      Acquire(swaps, ready, s.sustainedHandle, answer, r).(sustainedHandle := answer, sustained := true)
    else if s.sustained then
      var freed := Release(s, s.sustainedHandle).(sustained := false);
      if s.vr then Acquire(swaps, freed, s.vrHandle, answer, VR).(vrHandle := answer) else freed
    else s
  }

  function OnVrMode(swaps: bool, s: State, on: bool, answer: int): State {
    if on && !s.vr then
      var (ready, r) :=
        if s.sustained then (Release(s, s.sustainedHandle), SUSTAINED_AND_VR) else (EndLaunch(s), VR);
      Acquire(swaps, ready, s.vrHandle, answer, r).(vrHandle := answer, vr := true)
    else if s.vr then
      var freed := Release(s, s.vrHandle).(vr := false);
      if s.sustained then
        Acquire(swaps, freed, s.sustainedHandle, answer, BACK_TO_SUSTAINED).(sustainedHandle := answer)
      else freed
    else s
  }

  // The launch lock itself ends after five seconds, so it is not among the indefinite ones.
  function OnLaunch(s: State, on: bool, answer: int): State {
    if s.sustained || s.vr then s
    else if on && !s.launchMode then
      s.(launchHandle := answer, launchMode := answer > 0, used := s.used + if answer > 0 then {answer} else {})
    else if !on then EndLaunch(s)
    else s
  }

  function Step(swaps: bool, s: State, h: Hint): State {
    match h
    case Sustained(on, answer) => OnSustained(swaps, s, on, answer)
    case VrMode(on, answer) => OnVrMode(swaps, s, on, answer)
    case Launch(on, answer) => OnLaunch(s, on, answer)
  }

  /* ---------- one lock per mode ---------- */

  // Handles that were given out, or never: 0 and -1.
  predicate Known(s: State, handle: int) { handle <= 0 || handle in s.used }

  // What holds in every run, whatever the library answers.
  ghost predicate Sound(s: State) {
    && (s.launchMode ==> !s.sustained && !s.vr)
    && Known(s, s.sustainedHandle) && Known(s, s.vrHandle) && Known(s, s.launchHandle)
    && (forall h :: h in s.held ==> h > 0 && h in s.used && h != s.launchHandle)
    && (s.sustainedHandle == s.vrHandle ==> s.sustainedHandle <= 0)
    && (s.launchHandle > 0 ==> s.launchHandle != s.sustainedHandle && s.launchHandle != s.vrHandle)
  }

  ghost predicate Only(held: map<int, Resources>, handle: int, r: Resources) {
    handle in held && held[handle] == r && forall h :: h in held ==> h == handle
  }

  // The one lock for the modes that are on, under the handle of one of them.
  ghost predicate OneLock(s: State) {
    if s.sustained && s.vr then
      Only(s.held, s.sustainedHandle, SUSTAINED_AND_VR) || Only(s.held, s.vrHandle, SUSTAINED_AND_VR)
    else if s.sustained then
      Only(s.held, s.sustainedHandle, SUSTAINED) || Only(s.held, s.sustainedHandle, BACK_TO_SUSTAINED)
    else if s.vr then Only(s.held, s.vrHandle, VR)
    else forall h :: h !in s.held
  }

  // Turning off one of two modes while the other's handle holds the lock: the one case in which the
  // library is passed a handle that is held.
  predicate PassesHeld(s: State, h: Hint) {
    s.sustained && s.vr &&
    ((h.Sustained? && s.vrHandle in s.held) || (h.VrMode? && s.sustainedHandle in s.held))
  }

  // Whether the hint needs a new lock: it switches a mode on, or leaves the other one alone.
  predicate Acquires(s: State, h: Hint) {
    match h
    case Sustained(on, _) => if s.sustained then s.vr else on
    case VrMode(on, _) => if s.vr then s.sustained else on
    case Launch(_, _) => false
  }

  lemma SustainedKeepsSound(swaps: bool, s: State, on: bool, answer: int)
    requires Sound(s) && Fresh(s, answer)
    ensures Sound(OnSustained(swaps, s, on, answer))
  {
  }

  lemma VrModeKeepsSound(swaps: bool, s: State, on: bool, answer: int)
    requires Sound(s) && Fresh(s, answer)
    ensures Sound(OnVrMode(swaps, s, on, answer))
  {
  }

  lemma SustainedOnKeepsOneLockIff(swaps: bool, s: State, answer: int)
    requires Sound(s) && OneLock(s) && Fresh(s, answer) && !s.sustained
    ensures OneLock(OnSustained(swaps, s, true, answer)) <==> answer != FAILED
  {
    assert answer != FAILED ==> answer in OnSustained(swaps, s, true, answer).held;
  }

  lemma SustainedOffKeepsOneLockIff(swaps: bool, s: State, on: bool, answer: int)
    requires Sound(s) && OneLock(s) && Fresh(s, answer) && s.sustained
    ensures OneLock(OnSustained(swaps, s, on, answer)) <==>
      (s.vr ==> answer != FAILED && (swaps || s.vrHandle !in s.held))
  {
    var t := OnSustained(swaps, s, on, answer);
    if s.vr && answer != FAILED {
      assert answer in t.held && (s.vrHandle in s.held && !swaps ==> s.vrHandle in t.held);
    }
  }

  lemma SustainedKeepsOneLockIff(swaps: bool, s: State, on: bool, answer: int)
    requires Sound(s) && OneLock(s) && Fresh(s, answer)
    ensures OneLock(OnSustained(swaps, s, on, answer)) <==> Hands(swaps, s, Sustained(on, answer))
  {
    if s.sustained {
      SustainedOffKeepsOneLockIff(swaps, s, on, answer);
    } else if on {
      SustainedOnKeepsOneLockIff(swaps, s, answer);
    }
    hide OneLock, Sound;
  }

  lemma VrModeOnKeepsOneLockIff(swaps: bool, s: State, answer: int)
    requires Sound(s) && OneLock(s) && Fresh(s, answer) && !s.vr
    ensures OneLock(OnVrMode(swaps, s, true, answer)) <==> answer != FAILED
  {
    assert answer != FAILED ==> answer in OnVrMode(swaps, s, true, answer).held;
  }

  lemma VrModeOffKeepsOneLockIff(swaps: bool, s: State, on: bool, answer: int)
    requires Sound(s) && OneLock(s) && Fresh(s, answer) && s.vr
    ensures OneLock(OnVrMode(swaps, s, on, answer)) <==>
      (s.sustained ==> answer != FAILED && (swaps || s.sustainedHandle !in s.held))
  {
    var t := OnVrMode(swaps, s, on, answer);
    if s.sustained && answer != FAILED {
      assert answer in t.held && (s.sustainedHandle in s.held && !swaps ==> s.sustainedHandle in t.held);
    }
  }

  lemma VrModeKeepsOneLockIff(swaps: bool, s: State, on: bool, answer: int)
    requires Sound(s) && OneLock(s) && Fresh(s, answer)
    ensures OneLock(OnVrMode(swaps, s, on, answer)) <==> Hands(swaps, s, VrMode(on, answer))
  {
    if s.vr {
      VrModeOffKeepsOneLockIff(swaps, s, on, answer);
    } else if on {
      VrModeOnKeepsOneLockIff(swaps, s, answer);
    }
    hide OneLock, Sound;
  }

  // The lock is handed over: the acquire succeeds, and does not add to a lock that is held.
  predicate Hands(swaps: bool, s: State, h: Hint) {
    Acquires(s, h) ==> h.answer != FAILED && (swaps || !PassesHeld(s, h))
  }

  lemma LaunchKeeps(s: State, on: bool, answer: int)
    requires Sound(s) && Fresh(s, answer)
    ensures var t := OnLaunch(s, on, answer); Sound(t) && (OneLock(s) ==> OneLock(t))
  {
  }

  // Each hint keeps what is sound; and it keeps the one lock exactly when it hands it over.
  lemma StepKeepsOneLockIff(swaps: bool, s: State, h: Hint)
    requires Sound(s) && Fresh(s, h.answer)
    ensures Sound(Step(swaps, s, h))
    ensures OneLock(s) ==> (OneLock(Step(swaps, s, h)) <==> Hands(swaps, s, h))
  {
    match h {
      case Sustained(on, answer) =>
        SustainedKeepsSound(swaps, s, on, answer);
        if OneLock(s) { SustainedKeepsOneLockIff(swaps, s, on, answer); }
      case VrMode(on, answer) =>
        VrModeKeepsSound(swaps, s, on, answer);
        if OneLock(s) { VrModeKeepsOneLockIff(swaps, s, on, answer); }
      case Launch(on, answer) => LaunchKeeps(s, on, answer);
    }
    hide OnSustained, OnVrMode, OnLaunch, Sound, OneLock, PassesHeld;
  }

  ghost function After(swaps: bool, run: seq<Hint>, k: nat): State
    requires k <= |run|
  {
    if k == 0 then INIT else Step(swaps, After(swaps, run, k - 1), run[k - 1])
  }

  ghost predicate AllFresh(swaps: bool, run: seq<Hint>) {
    forall j :: 0 <= j < |run| ==> Fresh(After(swaps, run, j), run[j].answer)
  }

  // In every run, whatever the library answers: the launch boost is never on in a mode, and no
  // handle is used for two things.
  lemma {:induction false} LaunchExcludesModes(swaps: bool, run: seq<Hint>, k: nat)
    requires k <= |run| && AllFresh(swaps, run)
    ensures Sound(After(swaps, run, k))
    ensures After(swaps, run, k).launchMode ==> !After(swaps, run, k).sustained && !After(swaps, run, k).vr
  {
    hide Step, Fresh;
    if k > 0 {
      LaunchExcludesModes(swaps, run, k - 1);
      StepKeepsOneLockIff(swaps, After(swaps, run, k - 1), run[k - 1]);
    }
  }

  // In every run with successful acquires, and a library that replaces a held lock: there is
  // exactly one mode lock while a mode is on, and none otherwise.
  lemma {:induction false} OneLockWhileModeIsOn(run: seq<Hint>, k: nat)
    requires k <= |run| && AllFresh(true, run) && forall j :: 0 <= j < k ==> run[j].answer != FAILED
    ensures var s := After(true, run, k);
      && OneLock(s) && ((exists h :: h in s.held) <==> s.sustained || s.vr)
      && (forall g, h :: g in s.held && h in s.held ==> g == h)
  {
    hide Step, Fresh;
    if k > 0 {
      LaunchExcludesModes(true, run, k - 1);
      OneLockWhileModeIsOn(run, k - 1);
      StepKeepsOneLockIff(true, After(true, run, k - 1), run[k - 1]);
    }
  }

  // A library that adds instead leaks the lock of both modes when the mode that came first goes.
  lemma AddingLeaksLock()
    ensures var s := After(false, [Sustained(true, 1), VrMode(true, 2), Sustained(false, 3), VrMode(false, 4)], 4);
      !s.sustained && !s.vr && s.held == map[2 := SUSTAINED_AND_VR]
  {
    var run := [Sustained(true, 1), VrMode(true, 2), Sustained(false, 3), VrMode(false, 4)];
    var s1 := State(true, false, 1, 0, false, -1, map[1 := SUSTAINED], {1});
    var s2 := State(true, true, 1, 2, false, -1, map[2 := SUSTAINED_AND_VR], {1, 2});
    var s3 := State(false, true, 1, 3, false, -1, map[2 := SUSTAINED_AND_VR, 3 := VR], {1, 2, 3});
    assert s1.held - {1} == map[];
    assert s2.held - {1} == s2.held;
    assert After(false, run, 1) == s1;
    assert After(false, run, 2) == s2;
    assert After(false, run, 3) == s3;
    assert After(false, run, 4) == Step(false, s3, run[3]);
    assert s3.held - {3} == map[2 := SUSTAINED_AND_VR];
  }

  /* ---------- what the lock says ---------- */

  // What the lock held sets a resource to; 0 asks for nothing, like leaving the resource out.
  ghost function Setting(s: State, resource: int): int
    requires OneLock(s)
  {
    if !s.sustained && !s.vr then 0
    else
      var r := s.held[if s.sustained && s.sustainedHandle in s.held then s.sustainedHandle else s.vrHandle];
      if resource in r then r[resource] else 0
  }

  // The values the comments of the source promise for the two flags.
  function Promised(sustained: bool, vr: bool, resource: int): int {
    if !sustained && !vr then 0
    else if resource in {CPU0_MAX, CPU2_MAX} then if sustained then 1209 else 1440
    else if resource in {CPU0_MIN, CPU2_MIN} then if !vr then 0 else if sustained then 1209 else 1440
    else if resource == GPU_MAX then if sustained then 315 else 510
    else if resource == GPU_MIN then if !vr then 133 else if sustained then 315 else 510
    else 0
  }

  // CPU and GPU frequencies depend on the flags alone, and not on the path; the GPU bus does in
  // one case: with only the sustained mode on, it is raised or not by how that came about.
  lemma SettingsFollowFlags(s: State, resource: int)
    requires Sound(s) && OneLock(s)
    ensures resource != GPU_BUS_MIN ==> Setting(s, resource) == Promised(s.sustained, s.vr, resource)
    ensures s.vr ==> Setting(s, GPU_BUS_MIN) == 7759
    ensures s.sustained && !s.vr ==> Setting(s, GPU_BUS_MIN) in {0, 7759}
  {
  }

  ghost predicate Succeeds(run: seq<Hint>) {
    AllFresh(true, run) && forall j :: 0 <= j < |run| ==> run[j].answer != FAILED
  }

  // So any two runs that end with the same flags end with the same frequencies.
  lemma SameFlagsSameSettings(a: seq<Hint>, b: seq<Hint>, resource: int)
    requires Succeeds(a) && Succeeds(b) && resource != GPU_BUS_MIN
    requires After(true, a, |a|).sustained == After(true, b, |b|).sustained
    requires After(true, a, |a|).vr == After(true, b, |b|).vr
    ensures OneLock(After(true, a, |a|)) && OneLock(After(true, b, |b|))
    ensures Setting(After(true, a, |a|), resource) == Setting(After(true, b, |b|), resource)
  {
    hide Step, OneLock, Sound, Setting, Promised, Fresh;
    OneLockWhileModeIsOn(a, |a|);
    OneLockWhileModeIsOn(b, |b|);
    LaunchExcludesModes(true, a, |a|);
    LaunchExcludesModes(true, b, |b|);
    SettingsFollowFlags(After(true, a, |a|), resource);
    SettingsFollowFlags(After(true, b, |b|), resource);
    hide After;
  }

  // In a run, the bus is not raised in the sustained mode exactly when the last step that changed
  // a flag was leaving the VR mode.
  ghost predicate FromVr(run: seq<Hint>, k: nat)
    requires k <= |run|
  {
    if k == 0 then false
    else
      var (s, h) := (After(true, run, k - 1), run[k - 1]);
      if After(true, run, k).sustained == s.sustained && After(true, run, k).vr == s.vr then FromVr(run, k - 1)
      else h.VrMode? && s.vr
  }

  lemma FromVrStep(run: seq<Hint>, k: nat)
    requires 0 < k <= |run|
    ensures var (s, t) := (After(true, run, k - 1), After(true, run, k));
      && t == Step(true, s, run[k - 1])
      && (FromVr(run, k) <==>
            if s.sustained == t.sustained && s.vr == t.vr then FromVr(run, k - 1) else run[k - 1].VrMode? && s.vr)
  {
  }

  ghost predicate BusIs(s: State, fromVr: bool)
    requires OneLock(s)
  {
    s.sustained && !s.vr ==> Setting(s, GPU_BUS_MIN) == if fromVr then 0 else 7759
  }

  lemma {:induction false} BusRemembersPath(run: seq<Hint>, k: nat)
    requires k <= |run| && AllFresh(true, run) && forall j :: 0 <= j < k ==> run[j].answer != FAILED
    ensures OneLock(After(true, run, k)) && BusIs(After(true, run, k), FromVr(run, k))
  {
    hide Step, Fresh, OneLock, Sound, Setting, FromVr, AllFresh;
    OneLockWhileModeIsOn(run, k);
    if k > 0 {
      BusRemembersPath(run, k - 1);
      LaunchExcludesModes(true, run, k - 1);
      FromVrStep(run, k);
      LastIsFresh(run, k);
      hide After, BusIs;
      BusStep(After(true, run, k - 1), run[k - 1], FromVr(run, k - 1));
    }
  }

  lemma LastIsFresh(run: seq<Hint>, k: nat)
    requires 0 < k <= |run| && AllFresh(true, run)
    ensures Fresh(After(true, run, k - 1), run[k - 1].answer)
  {
  }

  lemma BusStep(s: State, h: Hint, fromVr: bool)
    requires Sound(s) && OneLock(s) && Fresh(s, h.answer) && h.answer != FAILED
    requires OneLock(Step(true, s, h)) && BusIs(s, fromVr)
    ensures var t := Step(true, s, h);
      BusIs(t, if s.sustained == t.sustained && s.vr == t.vr then fromVr else h.VrMode? && s.vr)
  {
  }

  // A hint that a mode is on, sent again, turns it off: the flag follows neither the hint nor
  // its own last value, but is on exactly when the hint says so and it was not.
  lemma RepeatedHintTurnsOff(swaps: bool, s: State, h: Hint)
    ensures h.Sustained? ==> (Step(swaps, s, h).sustained <==> h.on && !s.sustained) && Step(swaps, s, h).vr == s.vr
    ensures h.VrMode? ==> (Step(swaps, s, h).vr <==> h.on && !s.vr) && Step(swaps, s, h).sustained == s.sustained
    ensures h.Launch? ==> Step(swaps, s, h).vr == s.vr && Step(swaps, s, h).sustained == s.sustained
  {
  }

  // The hints that the sustained mode is on, or the VR mode, since one that it is off.
  ghost function SustainedOns(run: seq<Hint>, k: nat): nat
    requires k <= |run|
  {
    if k == 0 then 0
    else if !run[k - 1].Sustained? then SustainedOns(run, k - 1)
    else if run[k - 1].on then SustainedOns(run, k - 1) + 1
    else 0
  }

  ghost function VrOns(run: seq<Hint>, k: nat): nat
    requires k <= |run|
  {
    if k == 0 then 0
    else if !run[k - 1].VrMode? then VrOns(run, k - 1)
    else if run[k - 1].on then VrOns(run, k - 1) + 1
    else 0
  }

  // So in every run, whatever the library answers, a mode is on exactly if the number of hints
  // that it is on, since the last that it is off, is odd; and the other mode's hints do not matter.
  lemma {:induction false} ModesCountHints(swaps: bool, run: seq<Hint>, k: nat)
    requires k <= |run|
    ensures After(swaps, run, k).sustained <==> SustainedOns(run, k) % 2 == 1
    ensures After(swaps, run, k).vr <==> VrOns(run, k) % 2 == 1
  {
    hide Step;
    if k > 0 {
      ModesCountHints(swaps, run, k - 1);
      RepeatedHintTurnsOff(swaps, After(swaps, run, k - 1), run[k - 1]);
    }
  }

  /* ---------- failed acquires, and the launch boost ---------- */

  // A mode hint whose acquire fails leaves the modes without a lock, the one of before being given
  // up; but for the one case in which the other mode's handle holds it.
  lemma FailedAcquireDropsLock(swaps: bool, s: State, h: Hint)
    requires Sound(s) && OneLock(s) && Acquires(s, h) && h.answer == FAILED
    ensures Step(swaps, s, h).held == if PassesHeld(s, h) then s.held else map[]
    ensures Step(swaps, s, h).used == s.used
  {
    var held := Step(swaps, s, h).held;
    if PassesHeld(s, h) {
      assert held == s.held;
    } else {
      assert forall g :: g !in held;
      assert held == map[];
    }
  }

  // Launch hints count only outside both modes, and a mode that comes on ends the boost: it goes on
  // with an on-hint that is given a lock, and off with an off-hint or with a mode.
  lemma LaunchIsExact(swaps: bool, s: State, h: Hint)
    requires Sound(s)
    ensures var t := Step(swaps, s, h);
      && (t.launchMode <==>
            !t.sustained && !t.vr && if h.Launch? then h.on && (s.launchMode || h.answer > 0) else s.launchMode)
      && (t.launchHandle ==
            if h.Launch? && h.on && !s.launchMode && !s.sustained && !s.vr then h.answer else s.launchHandle)
      && (h.Launch? ==> t.held == s.held && t.sustainedHandle == s.sustainedHandle && t.vrHandle == s.vrHandle)
  {
  }

  // The last hint to change the boost: a mode that came on, an off-hint outside the modes, or an
  // on-hint there that was given a lock.
  ghost predicate Decides(swaps: bool, run: seq<Hint>, i: nat)
    requires i < |run|
  {
    var t := After(swaps, run, i + 1);
    t.sustained || t.vr || (run[i].Launch? && (!run[i].on || run[i].answer > 0))
  }

  // In every run, the launch boost is on exactly if the last hint that decides was such an on-hint.
  lemma {:induction false} LaunchFollowsHints(swaps: bool, run: seq<Hint>, i: nat, k: nat)
    requires i < k <= |run| && AllFresh(swaps, run)
    requires Decides(swaps, run, i) && forall j :: i < j < k ==> !Decides(swaps, run, j)
    ensures After(swaps, run, k).launchMode <==>
      run[i].Launch? && run[i].on && !After(swaps, run, i + 1).sustained && !After(swaps, run, i + 1).vr
  {
    hide Step, Fresh, Sound, AllFresh;
    LaunchExcludesModes(swaps, run, k - 1);
    var (s, t) := (After(swaps, run, k - 1), After(swaps, run, k));
    assert t == Step(swaps, s, run[k - 1]);
    hide After;
    LaunchIsExact(swaps, s, run[k - 1]);
    if i + 1 < k {
      LaunchFollowsHints(swaps, run, i, k - 1);
      assert !Decides(swaps, run, k - 1);
    }
  }

  /* ---------- the source's object ---------- */

  class PowerHelper {
    var sustainedMode: bool
    var vrMode: bool
    var sustainedHandle: int
    var vrHandle: int
    var launchMode: bool
    var launchHandle: int
    const swaps: bool
    ghost var held: map<int, Resources>
    ghost var used: set<int>

    ghost function View(): State
      reads this
    {
      State(sustainedMode, vrMode, sustainedHandle, vrHandle, launchMode, launchHandle, held, used)
    }

    constructor (swaps: bool)
      ensures View() == INIT && this.swaps == swaps
    {
      this.swaps, sustainedMode, vrMode, launchMode := swaps, false, false, false;
      sustainedHandle, vrHandle, launchHandle, held, used := 0, 0, -1, map[], {};
    }

    method ReleaseRequest(handle: int)
      modifies this`held
      ensures View() == Release(old(View()), handle)
    {
      held := held - {handle};
    }

    method InteractionWithHandle(handle: int, r: Resources, answer: int) returns (newHandle: int)
      modifies this`held, this`used
      ensures newHandle == answer && View() == Acquire(swaps, old(View()), handle, answer, r)
    {
      if answer != FAILED {
        held := (if swaps then held - {handle} else held)[answer := r];
        used := used + {answer};
      }
      newHandle := answer;
    }

    // Ensures that no launch is in progress.
    method StopLaunch()
      modifies this`held, this`launchMode
      ensures View() == EndLaunch(old(View()))
    {
      if launchMode {
        ReleaseRequest(launchHandle);
        launchMode := false;
      }
    }

    method SustainedPerformance(on: bool, answer: int)
      modifies this
      ensures View() == Step(swaps, old(View()), Sustained(on, answer))
    {
      if on && !sustainedMode {
        if !vrMode {
          StopLaunch();
          sustainedHandle := InteractionWithHandle(sustainedHandle, SUSTAINED, answer);
        } else {
          ReleaseRequest(vrHandle);
          sustainedHandle := InteractionWithHandle(sustainedHandle, SUSTAINED_AND_VR, answer);
        }
        sustainedMode := true;
      } else if sustainedMode {
        ReleaseRequest(sustainedHandle);
        if vrMode {
          vrHandle := InteractionWithHandle(vrHandle, VR, answer);
        }
        sustainedMode := false;
      }
    }

    method VirtualReality(on: bool, answer: int)
      modifies this
      ensures View() == Step(swaps, old(View()), VrMode(on, answer))
    {
      if on && !vrMode {
        if !sustainedMode {
          StopLaunch();
          vrHandle := InteractionWithHandle(vrHandle, VR, answer);
        } else {
          ReleaseRequest(sustainedHandle);
          vrHandle := InteractionWithHandle(vrHandle, SUSTAINED_AND_VR, answer);
        }
        vrMode := true;
      } else if vrMode {
        ReleaseRequest(vrHandle);
        if sustainedMode {
          sustainedHandle := InteractionWithHandle(sustainedHandle, BACK_TO_SUSTAINED, answer);
        }
        vrMode := false;
      }
    }

    method ActivityLaunch(on: bool, answer: int) returns (handled: bool)
      modifies this
      ensures View() == Step(swaps, old(View()), Launch(on, answer))
      ensures handled <==>
        || old(sustainedMode) || old(vrMode) || (!on && old(launchMode)) || (on && !old(launchMode) && answer > 0)
    {
      if sustainedMode || vrMode {
        return true;
      }
      handled := false;
      if on && !launchMode {
        launchHandle := answer;
        if launchHandle > 0 {
          used := used + {answer};
          launchMode, handled := true, true;
        }
      } else if !on && launchMode {
        StopLaunch();
        handled := true;
      }
    }
  }
}
