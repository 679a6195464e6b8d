/** The daemon's list of apps: passes over all of them, and starting or stopping by name. */
module Fleet {
  import opened Basics
  import opened Lifecycle
  import opened LifecycleRuns
  import opened TokenSlab
  import opened Apps

  /** The apps are separate objects in their places, each valid and with its own tokens. */
  ghost predicate InPlace(apps: seq<App>) {
    && (forall i :: 0 <= i < |apps| ==> apps[i].id == i)
    && (forall i, j :: 0 <= i < j < |apps| ==>
          apps[i].log != apps[j].log && apps[i].log.mmap.file != apps[j].log.mmap.file)
  }

  ghost predicate AllValid(apps: seq<App>)
    reads apps, set a: App | a in apps :: a.log, set a: App | a in apps :: a.log.mmap.file
  {
    forall i :: 0 <= i < |apps| ==> apps[i].Valid()
  }

  /** Apps stay valid as long as nobody touches them. */
  twostate lemma AppsStayValid(apps: seq<App>)
    requires forall a :: a in apps ==> unchanged(a) && unchanged(a.log) && unchanged(a.log.mmap.file)
    requires old(AllValid(apps))
    ensures AllValid(apps)
  {
  }

  /** The tokens each app holds. */
  ghost function Helds(apps: seq<App>): (helds: seq<Option<AppRtTokens>>)
    reads apps
    ensures |helds| == |apps|
    ensures forall i :: 0 <= i < |apps| ==> helds[i] == Held(apps[i].state)
  {
    seq(|apps|, i requires 0 <= i < |apps| reads apps => Held(apps[i].state))
  }

  ghost predicate AllClaim(apps: seq<App>, ledger: Ledger)
    reads apps
  {
    Claims(ledger, Helds(apps))
  }

  ghost function Snaps(apps: seq<App>): (snaps: seq<AppSnapshot>)
    reads apps, set a: App | a in apps :: a.log
    ensures |snaps| == |apps|
    ensures forall i :: 0 <= i < |apps| ==> snaps[i] == apps[i].Snap()
  {
    seq(|apps|, i requires 0 <= i < |apps| reads apps, set a: App | a in apps :: a.log => apps[i].Snap())
  }

  /** The apps, and the pool of tokens they share with others. */
  datatype Estate = Estate(apps: seq<AppSnapshot>, pool: Pool)

  ghost function EstateOf(apps: seq<App>, slab: MioTokenSlab): (e: Estate)
    reads apps, slab, set a: App | a in apps :: a.log
    ensures e.apps == Snaps(apps) && e.pool == slab.Now()
  {
    Estate(Snaps(apps), slab.Now())
  }

  /** Only tokens of the apps in the list changed hands, apart from leaks. */
  ghost predicate ConnsKept(before: Ledger, after: Ledger, n: nat) {
    && (forall t :: t in before && !(before[t].AppFd? && before[t].app < n) ==> t in after && after[t] == before[t])
    && (forall t :: t in after && !(after[t].AppFd? && after[t].app < n) && after[t] != Leaked ==>
          t in before && before[t] == after[t])
  }

  lemma ConnsKeptStep(a: Ledger, b: Ledger, c: Ledger, i: nat, n: nat)
    requires ConnsKept(a, b, n) && OthersKept(b, c, AppParty(i)) && i < n
    ensures ConnsKept(a, c, n)
  {
  }

  lemma ConnsKeptTransitive(a: Ledger, b: Ledger, c: Ledger, n: nat)
    requires ConnsKept(a, b, n) && ConnsKept(b, c, n)
    ensures ConnsKept(a, c, n)
  {
  }

  lemma ConnsKeptSelf(a: Ledger, n: nat)
    ensures ConnsKept(a, a, n)
  {
  }

  lemma ClaimKept(before: Ledger, after: Ledger, i: nat, j: nat, held: Option<AppRtTokens>)
    requires OthersKept(before, after, AppParty(i)) && i != j && AppClaims(before, j, held)
    ensures AppClaims(after, j, held)
  {
  }

  /** One app's step leaves the others' claims alone. */
  lemma ClaimsStep(before: Ledger, after: Ledger, helds: seq<Option<AppRtTokens>>, i: nat, held: Option<AppRtTokens>)
    requires Claims(before, helds) && i < |helds|
    requires OthersKept(before, after, AppParty(i)) && AppClaims(after, i, held)
    ensures Claims(after, helds[i := held])
  {
    forall j | 0 <= j < |helds| && j != i ensures AppClaims(after, j, helds[j]) {
      ClaimKept(before, after, i, j, helds[j]);
    }
  }

  /** Starts one app. */
  method StartOne(apps: seq<App>, i: nat, slab: MioTokenSlab) returns (r: Apps.Result<()>)
    requires i < |apps| && InPlace(apps) && AllValid(apps) && AllClaim(apps, slab.owner) && slab.Valid()
    modifies apps[i], slab
    ensures AllValid(apps) && AllClaim(apps, slab.owner) && slab.Valid()
    ensures ConnsKept(old(slab.owner), slab.owner, |apps|)
    ensures Snaps(apps) == old(Snaps(apps))[i := apps[i].Snap()]
    ensures StartOutcome(old(apps[i].Snap()), apps[i].Snap(), old(slab.Now()), r)
    ensures slab.Now() == AfterStart(old(apps[i].Snap()), old(slab.Now()))
  {
    hide App.Valid, AppClaims, OthersKept, ConnsKept, StartOutcome, AfterStart, LeakedTokens, MioTokenSlab.Valid,
      App.Snap;
    ghost var ledger, helds := slab.owner, Helds(apps);
    ConnsKeptSelf(ledger, |apps|);
    r := apps[i].Start(slab);
    ConnsKeptStep(ledger, ledger, slab.owner, i, |apps|);
    ClaimsStep(ledger, slab.owner, helds, i, Held(apps[i].state));
    assert Helds(apps) == helds[i := Held(apps[i].state)];
  }

  /** The pool once all of the apps have been started, one after the other. */
  function AfterStarts(apps: seq<AppSnapshot>, pool: Pool): Pool {
    if apps == [] then pool else AfterStart(apps[|apps| - 1], AfterStarts(apps[..|apps| - 1], pool))
  }

  lemma {:induction false} StartsArePaidFor(apps: seq<AppSnapshot>, pool: Pool)
    ensures PaidFor(pool.lost, AfterStarts(apps, pool).lost)
  {
    if apps != [] {
      var init := apps[..|apps| - 1];
      StartsArePaidFor(init, pool);
      LaunchIsPaidFor(NextLaunch(apps[|apps| - 1]), AfterStarts(init, pool));
    }
  }

  /** The first apps, as many as there are results, have been started one after the other, each with
      the tokens those before it have left. */
  ghost predicate StartedUpTo(before: Estate, after: Estate, results: seq<Apps.Result<()>>) {
    && |results| <= |before.apps| == |after.apps|
    && (forall i :: 0 <= i < |results| ==>
          StartOutcome(before.apps[i], after.apps[i], AfterStarts(before.apps[..i], before.pool), results[i]))
    && before.apps[|results|..] == after.apps[|results|..]
    && after.pool == AfterStarts(before.apps[..|results|], before.pool)
  }

  /** What starting all the apps does, with what came of each. */
  ghost predicate AllStarted(before: Estate, after: Estate, results: seq<Apps.Result<()>>) {
    |results| == |before.apps| && StartedUpTo(before, after, results)
  }

  lemma StartsBegin(before: Estate)
    ensures StartedUpTo(before, before, [])
  {
  }

  lemma StartsGoOn(before: Estate, mid: Estate, after: Estate, results: seq<Apps.Result<()>>, r: Apps.Result<()>)
    requires StartedUpTo(before, mid, results) && |results| < |before.apps| == |after.apps|
    requires after.apps == mid.apps[|results| := after.apps[|results|]]
    requires StartOutcome(mid.apps[|results|], after.apps[|results|], mid.pool, r)
    requires after.pool == AfterStart(mid.apps[|results|], mid.pool)
    ensures StartedUpTo(before, after, results + [r])
  {
    hide StartOutcome, AfterStart;
    var i := |results|;
    assert before.apps[i] == before.apps[i..][0] == mid.apps[i..][0] == mid.apps[i];
    assert before.apps[i + 1..] == before.apps[i..][1..] && after.apps[i + 1..] == mid.apps[i..][1..];
    assert (results + [r])[..i] == results;
    assert before.apps[..i + 1][..i] == before.apps[..i];
  }

  /** Starts every app, one after the other. */
  method StartAll(apps: seq<App>, slab: MioTokenSlab) returns (results: seq<Apps.Result<()>>)
    requires InPlace(apps) && AllValid(apps) && AllClaim(apps, slab.owner) && slab.Valid()
    modifies apps, slab
    ensures AllValid(apps) && AllClaim(apps, slab.owner) && slab.Valid()
    ensures ConnsKept(old(slab.owner), slab.owner, |apps|)
    ensures AllStarted(old(EstateOf(apps, slab)), EstateOf(apps, slab), results)
  {
    hide InPlace, AllValid, AllClaim, AppClaims, OthersKept, ConnsKept, StartOutcome, AfterStart, Claims,
      MioTokenSlab.Valid, App.Snap,
      MioTokenSlab.Now, StartedUpTo;
    ghost var before := EstateOf(apps, slab);
    ConnsKeptSelf(slab.owner, |apps|);
    StartsBegin(before);
    results := [];
    for i := 0 to |apps|
      invariant AllValid(apps) && AllClaim(apps, slab.owner) && slab.Valid()
      invariant ConnsKept(old(slab.owner), slab.owner, |apps|)
      invariant |results| == i && StartedUpTo(before, EstateOf(apps, slab), results)
    {
      ghost var ledger, mid := slab.owner, EstateOf(apps, slab);
      var r := StartOne(apps, i, slab);
      ConnsKeptTransitive(old(slab.owner), ledger, slab.owner, |apps|);
      StartsGoOn(before, mid, EstateOf(apps, slab), results, r);
      results := results + [r];
    }
  }

  lemma StopKeepsTokens(before: AppSnapshot, after: AppSnapshot, force: bool, r: Apps.Result<bool>)
    requires StopOutcome(before, after, force, r)
    ensures Held(after.view.state) == Held(before.view.state)
  {
  }

  /** Stops one app. */
  method StopOne(apps: seq<App>, i: nat, force: bool) returns (r: Apps.Result<bool>)
    requires i < |apps| && InPlace(apps) && AllValid(apps)
    modifies apps[i]
    ensures AllValid(apps) && Helds(apps) == old(Helds(apps))
    ensures StopOutcome(old(apps[i].Snap()), apps[i].Snap(), force, r)
  {
    hide App.Valid, StopOutcome;
    ghost var before := apps[i].Snap();
    r := apps[i].Stop(force);
    StopKeepsTokens(before, apps[i].Snap(), force, r);
    assert Helds(apps) == old(Helds(apps));
  }

  /** What stopping all the apps does, with what came of each. */
  ghost predicate AllStopped(before: seq<AppSnapshot>, after: seq<AppSnapshot>, force: bool,
      results: seq<Apps.Result<bool>>)
  {
    && |before| == |after| == |results|
    && forall i :: 0 <= i < |results| ==> StopOutcome(before[i], after[i], force, results[i])
  }

  /** Stops every app, one after the other. */
  method StopAll(apps: seq<App>, force: bool) returns (results: seq<Apps.Result<bool>>)
    requires InPlace(apps) && AllValid(apps)
    modifies apps
    ensures AllValid(apps) && Helds(apps) == old(Helds(apps))
    ensures AllStopped(old(Snaps(apps)), Snaps(apps), force, results)
  {
    hide App.Valid, StopOutcome, App.Snap;
    ghost var before, helds := Snaps(apps), Helds(apps);
    results := [];
    for i := 0 to |apps|
      invariant AllValid(apps) && Helds(apps) == helds
      invariant |results| == i
      invariant forall j :: 0 <= j < i ==> StopOutcome(before[j], apps[j].Snap(), force, results[j])
      invariant forall j :: i <= j < |apps| ==> apps[j].Snap() == before[j]
    {
      var r := StopOne(apps, i, force);
      results := results + [r];
    }
  }

  /** The restart phase for one app. */
  method RestartOne(apps: seq<App>, i: nat, now: Instant, slab: MioTokenSlab, allowed: bool)
    requires i < |apps| && InPlace(apps) && AllValid(apps) && AllClaim(apps, slab.owner) && slab.Valid()
    modifies apps[i], slab
    ensures AllValid(apps) && AllClaim(apps, slab.owner) && slab.Valid()
    ensures ConnsKept(old(slab.owner), slab.owner, |apps|)
    ensures Snaps(apps) == old(Snaps(apps))[i := apps[i].Snap()]
    ensures PhaseOutcome(old(apps[i].Snap()), apps[i].Snap(), now, allowed, old(slab.Now()))
    ensures slab.Now() == AfterPhase(old(apps[i].Snap()), now, allowed, old(slab.Now()))
  {
    hide App.Valid, AppClaims, OthersKept, ConnsKept, PhaseOutcome, AfterPhase, LeakedTokens, MioTokenSlab.Valid,
      App.Snap;
    ghost var ledger, helds := slab.owner, Helds(apps);
    ConnsKeptSelf(ledger, |apps|);
    apps[i].MaybeRestart(now, slab, allowed);
    ConnsKeptStep(ledger, ledger, slab.owner, i, |apps|);
    ClaimsStep(ledger, slab.owner, helds, i, Held(apps[i].state));
    assert Helds(apps) == helds[i := Held(apps[i].state)];
  }

  /** The pool once the restart phase is through with the apps. */
  function AfterPhases(apps: seq<AppSnapshot>, now: Instant, allowed: bool, pool: Pool): Pool {
    if apps == [] then pool
    else AfterPhase(apps[|apps| - 1], now, allowed, AfterPhases(apps[..|apps| - 1], now, allowed, pool))
  }

  lemma {:induction false} PhasesArePaidFor(apps: seq<AppSnapshot>, now: Instant, allowed: bool, pool: Pool)
    ensures PaidFor(pool.lost, AfterPhases(apps, now, allowed, pool).lost)
  {
    if apps != [] {
      var init := apps[..|apps| - 1];
      PhasesArePaidFor(init, now, allowed, pool);
      LaunchIsPaidFor(NextLaunch(apps[|apps| - 1]), AfterPhases(init, now, allowed, pool));
    }
  }

  /** The restart phase has come to the app at position `i`; each app before it was seen to with the
      tokens those before it had left. */
  ghost predicate PhasedUpTo(before: Estate, after: Estate, i: nat, now: Instant, allowed: bool) {
    && i <= |before.apps| == |after.apps|
    && (forall j :: 0 <= j < i ==>
          PhaseOutcome(before.apps[j], after.apps[j], now, allowed,
            AfterPhases(before.apps[..j], now, allowed, before.pool)))
    && before.apps[i..] == after.apps[i..]
    && after.pool == AfterPhases(before.apps[..i], now, allowed, before.pool)
  }

  /** What the restart phase does to all the apps. */
  ghost predicate AllPhased(before: Estate, after: Estate, now: Instant, allowed: bool) {
    PhasedUpTo(before, after, |before.apps|, now, allowed)
  }

  lemma PhaseBegins(before: Estate, now: Instant, allowed: bool)
    ensures PhasedUpTo(before, before, 0, now, allowed)
  {
  }

  lemma PhaseGoesOn(before: Estate, mid: Estate, after: Estate, i: nat, now: Instant, allowed: bool)
    requires PhasedUpTo(before, mid, i, now, allowed) && i < |before.apps| == |after.apps|
    requires after.apps == mid.apps[i := after.apps[i]]
    requires PhaseOutcome(mid.apps[i], after.apps[i], now, allowed, mid.pool)
    requires after.pool == AfterPhase(mid.apps[i], now, allowed, mid.pool)
    ensures PhasedUpTo(before, after, i + 1, now, allowed)
  {
    hide PhaseOutcome, AfterPhase;
    assert before.apps[i] == before.apps[i..][0] == mid.apps[i..][0] == mid.apps[i];
    assert before.apps[i + 1..] == before.apps[i..][1..] && after.apps[i + 1..] == mid.apps[i..][1..];
    assert before.apps[..i + 1][..i] == before.apps[..i];
  }

  /** One pass of the restart phase. */
  method RestartPass(apps: seq<App>, now: Instant, slab: MioTokenSlab, allowed: bool)
    requires InPlace(apps) && AllValid(apps) && AllClaim(apps, slab.owner) && slab.Valid()
    modifies apps, slab
    ensures AllValid(apps) && AllClaim(apps, slab.owner) && slab.Valid()
    ensures ConnsKept(old(slab.owner), slab.owner, |apps|)
    ensures AllPhased(old(EstateOf(apps, slab)), EstateOf(apps, slab), now, allowed)
  {
    hide InPlace, AllValid, AllClaim, AppClaims, OthersKept, ConnsKept, PhaseOutcome, AfterPhase, Claims,
      MioTokenSlab.Valid, App.Snap,
      MioTokenSlab.Now, PhasedUpTo;
    ghost var before := EstateOf(apps, slab);
    ConnsKeptSelf(slab.owner, |apps|);
    PhaseBegins(before, now, allowed);
    for i := 0 to |apps|
      invariant AllValid(apps) && AllClaim(apps, slab.owner) && slab.Valid()
      invariant ConnsKept(old(slab.owner), slab.owner, |apps|)
      invariant PhasedUpTo(before, EstateOf(apps, slab), i, now, allowed)
    {
      ghost var ledger, mid := slab.owner, EstateOf(apps, slab);
      RestartOne(apps, i, now, slab, allowed);
      ConnsKeptTransitive(old(slab.owner), ledger, slab.owner, |apps|);
      PhaseGoesOn(before, mid, EstateOf(apps, slab), i, now, allowed);
    }
  }

  /** An event never restarts an app, and never takes anything from a log. */
  lemma ReactionIsNoRestart(before: AppSnapshot, after: AppSnapshot, token: Token, event: AppEvent, tryRestart: bool)
    requires PollOutcome(before, after, token, event, tryRestart)
    ensures NoRestart(before.view, after.view) && before.log <= after.log
  {
  }

  /** Offers an event to one app. */
  method PollOne(apps: seq<App>, i: nat, slab: MioTokenSlab, token: Token, event: AppEvent, tryRestart: bool)
    requires i < |apps| && InPlace(apps) && AllValid(apps) && AllClaim(apps, slab.owner) && slab.Valid()
    modifies apps[i], slab, apps[i].log, apps[i].log.mmap.file
    ensures AllValid(apps) && AllClaim(apps, slab.owner) && slab.Valid()
    ensures ConnsKept(old(slab.owner), slab.owner, |apps|)
    ensures Snaps(apps) == old(Snaps(apps))[i := apps[i].Snap()]
    ensures slab.Now().lost == old(slab.Now().lost)
    ensures PollOutcome(old(apps[i].Snap()), apps[i].Snap(), token, event, tryRestart)
  {
    hide App.Valid, AppClaims, OthersKept, ConnsKept, PollOutcome, LeakedTokens, TokenSet, MioTokenSlab.Valid;
    ghost var ledger, helds := slab.owner, Helds(apps);
    ConnsKeptSelf(ledger, |apps|);
    apps[i].Poll(slab, token, event, tryRestart);
    ConnsKeptStep(ledger, ledger, slab.owner, i, |apps|);
    ClaimsStep(ledger, slab.owner, helds, i, Held(apps[i].state));
    assert Helds(apps) == helds[i := Held(apps[i].state)];
  }

  /** Only the first `i` apps have been offered the event. */
  ghost predicate ReactedUpTo(before: seq<AppSnapshot>, after: seq<AppSnapshot>, i: nat, token: Token,
      event: AppEvent, tryRestart: bool)
  {
    && i <= |before| == |after|
    && (forall j :: 0 <= j < i ==> PollOutcome(before[j], after[j], token, event, tryRestart))
    && before[i..] == after[i..]
  }

  /** What an event that is not for a connection does to all the apps. */
  ghost predicate AllReacted(before: seq<AppSnapshot>, after: seq<AppSnapshot>, token: Token, event: AppEvent,
      tryRestart: bool)
  {
    ReactedUpTo(before, after, |before|, token, event, tryRestart)
  }

  lemma ReactionsBegin(before: seq<AppSnapshot>, token: Token, event: AppEvent, tryRestart: bool)
    ensures ReactedUpTo(before, before, 0, token, event, tryRestart)
  {
  }

  lemma ReactionsGoOn(before: seq<AppSnapshot>, mid: seq<AppSnapshot>, after: seq<AppSnapshot>, i: nat, token: Token,
      event: AppEvent, tryRestart: bool)
    requires ReactedUpTo(before, mid, i, token, event, tryRestart) && i < |before| == |after|
    requires after == mid[i := after[i]] && PollOutcome(mid[i], after[i], token, event, tryRestart)
    ensures ReactedUpTo(before, after, i + 1, token, event, tryRestart)
  {
    hide PollOutcome;
    assert before[i] == before[i..][0] == mid[i..][0] == mid[i];
    assert before[i + 1..] == before[i..][1..] && after[i + 1..] == mid[i..][1..];
  }

  /** Offers an event to every app; only the holder of its token reacts. */
  method PollAll(apps: seq<App>, slab: MioTokenSlab, token: Token, event: AppEvent, tryRestart: bool)
    requires InPlace(apps) && AllValid(apps) && AllClaim(apps, slab.owner) && slab.Valid()
    modifies apps, slab, set a: App | a in apps :: a.log, set a: App | a in apps :: a.log.mmap.file
    ensures AllValid(apps) && AllClaim(apps, slab.owner) && slab.Valid()
    ensures ConnsKept(old(slab.owner), slab.owner, |apps|)
    ensures slab.Now().lost == old(slab.Now().lost)
    ensures AllReacted(old(Snaps(apps)), Snaps(apps), token, event, tryRestart)
  {
    hide InPlace, AllValid, AllClaim, AppClaims, OthersKept, ConnsKept, PollOutcome, Claims, MioTokenSlab.Valid,
      App.Snap,
      MioTokenSlab.Now, ReactedUpTo;
    ghost var before := Snaps(apps);
    ConnsKeptSelf(slab.owner, |apps|);
    ReactionsBegin(before, token, event, tryRestart);
    for i := 0 to |apps|
      invariant AllValid(apps) && AllClaim(apps, slab.owner) && slab.Valid()
      invariant ConnsKept(old(slab.owner), slab.owner, |apps|)
      invariant slab.Now().lost == old(slab.Now().lost)
      invariant ReactedUpTo(before, Snaps(apps), i, token, event, tryRestart)
    {
      ghost var ledger, mid := slab.owner, Snaps(apps);
      PollOne(apps, i, slab, token, event, tryRestart);
      ConnsKeptTransitive(old(slab.owner), ledger, slab.owner, |apps|);
      ReactionsGoOn(before, mid, Snaps(apps), i, token, event, tryRestart);
    }
  }
}
