/** The control socket: requests come in as lines, each gets one reply line, and a connection is
    closed once its replies are flushed. */
module ControlIpc {
  import opened Basics
  import opened Lifecycle
  import opened LifecycleRuns
  import opened TokenSlab
  import opened Apps
  import opened Fleet

  type Name = seq<byte>

  datatype Request =
    | List
    | Info(name: Name)
    | Config(name: Name)
    | Start(name: Name)
    | StartAll
    | Stop(name: Name, force: bool)
    | StopAll(force: bool)

  datatype AppInfo = AppInfo(name: Name, state: State, restartCount: nat, logBytes: nat)

  datatype Response =
    | AppList(apps: seq<AppInfo>)
    | InfoReply(name: Name, info: AppInfo)
    | ConfigReply(name: Name, config: AppParams)
    | Started(name: Name)
    | StartedAll(started: seq<Name>, failed: seq<Name>)
    | Stopped(name: Name, appWasRunning: bool)
    | StoppedAll(stopped: seq<Name>, failed: seq<Name>)
    | AppNotFound(name: Name, known: seq<Name>)
    | Error

  /** The names for which a pass over all apps did, or did not, succeed. */
  function NamesOf<T>(names: seq<Name>, results: seq<Apps.Result<T>>, ok: bool): seq<Name>
    requires |names| == |results|
  {
    if names == [] then []
    else (if results[0].Ok? == ok then [names[0]] else []) + NamesOf(names[1..], results[1..], ok)
  }

  /** A reply about a pass over all apps lists each name once, under the outcome its app had. */
  lemma {:induction false} NamesSorted<T>(names: seq<Name>, results: seq<Apps.Result<T>>)
    requires |names| == |results|
    ensures |NamesOf(names, results, true)| + |NamesOf(names, results, false)| == |names|
    ensures forall ok, name :: name in NamesOf(names, results, ok) <==>
              exists i :: 0 <= i < |names| && names[i] == name && results[i].Ok? == ok
  {
    if names != [] {
      NamesSorted(names[1..], results[1..]);
      forall ok, name
        ensures name in NamesOf(names, results, ok) <==>
                  exists i :: 0 <= i < |names| && names[i] == name && results[i].Ok? == ok
      {
        if i :| 0 <= i < |names| && names[i] == name && results[i].Ok? == ok && i > 0 {
          assert names[1..][i - 1] == name && results[1..][i - 1].Ok? == ok;
        }
        if name in NamesOf(names[1..], results[1..], ok) {
          var i :| 0 <= i < |names[1..]| && names[1..][i] == name && results[1..][i].Ok? == ok;
          assert names[i + 1] == name && results[i + 1].Ok? == ok;
        }
      }
    }
  }

  /** Names are listed in the order of the apps. */
  lemma {:induction false} NamesInOrder<T>(names: seq<Name>, results: seq<Apps.Result<T>>, name: Name,
      result: Apps.Result<T>, ok: bool)
    requires |names| == |results|
    ensures NamesOf(names + [name], results + [result], ok)
            == NamesOf(names, results, ok) + if result.Ok? == ok then [name] else []
  {
    if names != [] {
      assert (names + [name])[1..] == names[1..] + [name];
      assert (results + [result])[1..] == results[1..] + [result];
      NamesInOrder(names[1..], results[1..], name, result, ok);
    } else {
      assert (names + [name])[1..] == [] && (results + [result])[1..] == [];
    }
  }

  function InfoOf(app: App): AppInfo
    reads app
  {
    AppInfo(app.params.name, app.state, app.restartCount, app.stdoutBytes + app.stderrBytes)
  }

  /** A description of an app gives its name, its state, its restarts, and the length of its log. */
  ghost predicate Describes(info: AppInfo, app: AppSnapshot) {
    && info.name == app.view.params.name && info.state == app.view.state
    && info.restartCount == app.view.restartCount && info.logBytes == |app.log|
  }

  lemma InfoDescribes(app: App)
    requires app.Valid()
    ensures Describes(InfoOf(app), app.Snap())
  {
  }

  /** The reply to a request that only asks. */
  ghost predicate Answers(names: seq<Name>, request: Option<Request>, apps: seq<AppSnapshot>, response: Response)
    requires |apps| == |names|
  {
    match request
    case Some(List) =>
      && response.AppList? && |response.apps| == |apps|
      && forall i :: 0 <= i < |apps| ==> Describes(response.apps[i], apps[i])
    case Some(Info(name)) =>
      var i := IndexOf(names, name);
      if i.None? then response == AppNotFound(name, names)
      else response.InfoReply? && response.name == name && Describes(response.info, apps[i.value])
    case Some(Config(name)) =>
      var i := IndexOf(names, name);
      response == if i.None? then AppNotFound(name, names) else ConfigReply(name, apps[i.value].view.params)
    case _ => response == Error
  }

  /** What a request to start one app does. */
  ghost predicate StartEffect(names: seq<Name>, name: Name, before: Estate, after: Estate, response: Response)
    requires |before.apps| == |after.apps| == |names|
  {
    match IndexOf(names, name)
    case None => after == before && response == AppNotFound(name, names)
    case Some(i) =>
      && after.apps == before.apps[i := after.apps[i]]
      && after.pool == AfterStart(before.apps[i], before.pool)
      && exists r ::
          && StartOutcome(before.apps[i], after.apps[i], before.pool, r)
          && response == if r.Ok? then Started(name) else Error
  }

  /** What a request to stop one app does. */
  ghost predicate StopEffect(names: seq<Name>, name: Name, force: bool, before: seq<AppSnapshot>,
      after: seq<AppSnapshot>,
      response: Response)
    requires |before| == |after| == |names|
  {
    match IndexOf(names, name)
    case None => after == before && response == AppNotFound(name, names)
    case Some(i) =>
      && after == before[i := after[i]]
      && exists r ::
          && StopOutcome(before[i], after[i], force, r)
          && response == if r.Ok? then Response.Stopped(name, r.value) else Error
  }

  /** What a request does to the apps: at most a start or a stop of the app it names, or of all. */
  ghost predicate Effect(names: seq<Name>, request: Option<Request>, before: Estate, after: Estate, response: Response)
    requires |before.apps| == |after.apps| == |names|
  {
    match request
    case Some(Start(name)) => StartEffect(names, name, before, after, response)
    case Some(StartAll) =>
      exists results ::
        && AllStarted(before, after, results)
        && response == StartedAll(NamesOf(names, results, true), NamesOf(names, results, false))
    case Some(Stop(name, force)) =>
      after.pool == before.pool && StopEffect(names, name, force, before.apps, after.apps, response)
    case Some(StopAll(force)) =>
      && after.pool == before.pool
      && exists results ::
          && AllStopped(before.apps, after.apps, force, results)
          && response == StoppedAll(NamesOf(names, results, true), NamesOf(names, results, false))
    case _ => after == before && Answers(names, request, before.apps, response)
  }

  /** Requests that may bring up the app at position `i`. */
  predicate AsksToStart(names: seq<Name>, request: Option<Request>, i: nat) {
    match request
    case Some(Start(name)) => IndexOf(names, name) == Option.Some(i)
    case Some(StartAll) => true
    case _ => false
  }

  /** Requests that stop the app at position `i`. */
  predicate AsksToStop(names: seq<Name>, request: Option<Request>, i: nat) {
    match request
    case Some(Stop(name, _)) => IndexOf(names, name) == Option.Some(i)
    case Some(StopAll(_)) => true
    case _ => false
  }

  /** A request leaves an app alone, starts it, or stops it, and starts it only if it asks for that. */
  ghost predicate AppEffect(before: AppSnapshot, after: AppSnapshot, starts: bool) {
    || after == before
    || (starts && exists pool, r :: StartOutcome(before, after, pool, r))
    || (exists force, r :: StopOutcome(before, after, force, r))
  }

  lemma EffectOnApp(names: seq<Name>, request: Option<Request>, before: Estate, after: Estate, response: Response,
      i: nat)
    requires |before.apps| == |after.apps| == |names| && Effect(names, request, before, after, response) && i < |names|
    ensures AppEffect(before.apps[i], after.apps[i], AsksToStart(names, request, i))
  {
    hide StartOutcome, StopOutcome, Answers, AfterStart, AfterStarts;
  }

  lemma AppEffectIsNoRestart(before: AppSnapshot, after: AppSnapshot, starts: bool)
    requires AppEffect(before, after, starts)
    ensures NoRestart(before.view, after.view)
    ensures after.log == before.log && after.stdout == before.stdout && after.stderr == before.stderr
    ensures !starts ==> NotStarted(before.view, after.view)
  {
    NotStartedSelf(before.view);
    StepStartsNothing(before.view, StopEvent);
  }

  ghost predicate AllNoRestart(before: seq<AppSnapshot>, after: seq<AppSnapshot>) {
    |before| == |after| && forall i :: 0 <= i < |before| ==> NoRestart(before[i].view, after[i].view)
  }

  /** The apps' output is the same. */
  ghost predicate SameOutput(before: seq<AppSnapshot>, after: seq<AppSnapshot>) {
    && |before| == |after|
    && forall i :: 0 <= i < |before| ==>
        && after[i].log == before[i].log
        && after[i].stdout == before[i].stdout
        && after[i].stderr == before[i].stderr
  }

  /** No request causes an automatic restart, or touches the output of an app. */
  lemma EffectsAreNoRestarts(names: seq<Name>, request: Option<Request>, before: Estate, after: Estate,
      response: Response)
    requires |before.apps| == |after.apps| == |names| && Effect(names, request, before, after, response)
    ensures AllNoRestart(before.apps, after.apps) && SameOutput(before.apps, after.apps)
  {
    hide Effect, AppEffect, NoRestart;
    forall i | 0 <= i < |names|
      ensures NoRestart(before.apps[i].view, after.apps[i].view)
      ensures after.apps[i].log == before.apps[i].log
      ensures after.apps[i].stdout == before.apps[i].stdout && after.apps[i].stderr == before.apps[i].stderr
    {
      EffectOnApp(names, request, before, after, response, i);
      AppEffectIsNoRestart(before.apps[i], after.apps[i], AsksToStart(names, request, i));
    }
  }

  /** An app is brought up by no request but one to start it. */
  lemma OnlyStartsStart(names: seq<Name>, request: Option<Request>, before: Estate, after: Estate, response: Response,
      i: nat)
    requires |before.apps| == |after.apps| == |names| && Effect(names, request, before, after, response) && i < |names|
    requires !AsksToStart(names, request, i)
    ensures NotStarted(before.apps[i].view, after.apps[i].view)
  {
    hide Effect, AppEffect, NotStarted;
    EffectOnApp(names, request, before, after, response, i);
    AppEffectIsNoRestart(before.apps[i], after.apps[i], false);
  }

  /** A request to stop an app leaves it so that only an explicit start can bring it up. */
  lemma StopsMakeQuiet(names: seq<Name>, request: Option<Request>, before: Estate, after: Estate, response: Response,
      i: nat)
    requires |before.apps| == |after.apps| == |names| && Effect(names, request, before, after, response) && i < |names|
    requires AsksToStop(names, request, i)
    ensures Quiet(after.apps[i].view)
  {
  }

  /** A request leaks only what its failed launches account for. */
  lemma EffectsArePaidFor(names: seq<Name>, request: Option<Request>, before: Estate, after: Estate, response: Response)
    requires |before.apps| == |after.apps| == |names| && Effect(names, request, before, after, response)
    ensures PaidFor(before.pool.lost, after.pool.lost)
  {
    hide StartOutcome, StopOutcome, AfterLaunch;
    match request
    case Some(Start(name)) =>
      if IndexOf(names, name).Some? {
        LaunchIsPaidFor(NextLaunch(before.apps[IndexOf(names, name).value]), before.pool);
      }
    case Some(StartAll) =>
      assert before.apps[..|names|] == before.apps;
      StartsArePaidFor(before.apps, before.pool);
    case _ =>
  }

  /** Answers a request that only asks, or a line that is no request. */
  method HandleQuery(request: Option<Request>, apps: seq<App>) returns (response: Response)
    requires request.Some? ==> request.value.List? || request.value.Info? || request.value.Config?
    requires AllValid(apps)
    ensures Answers(AppNames(apps), request, Snaps(apps), response)
  {
    hide App.Valid, Describes;
    forall i | 0 <= i < |apps| ensures Describes(InfoOf(apps[i]), apps[i].Snap()) {
      InfoDescribes(apps[i]);
    }
    match request
    case Some(List) =>
      return AppList(seq(|apps|, i requires 0 <= i < |apps| reads apps => InfoOf(apps[i])));
    case Some(Info(name)) =>
      var found := IndexOf(AppNames(apps), name);
      return if found.None? then AppNotFound(name, AppNames(apps)) else InfoReply(name, InfoOf(apps[found.value]));
    case Some(Config(name)) =>
      var found := IndexOf(AppNames(apps), name);
      return if found.None? then AppNotFound(name, AppNames(apps)) else ConfigReply(name, apps[found.value].params);
    case _ =>
      return Error;
  }

  /** Starts the app with a name. */
  method HandleStart(name: Name, apps: seq<App>, slab: MioTokenSlab) returns (response: Response)
    requires InPlace(apps) && AllValid(apps) && AllClaim(apps, slab.owner) && slab.Valid()
    modifies apps, slab
    ensures AllValid(apps) && AllClaim(apps, slab.owner) && slab.Valid()
    ensures ConnsKept(old(slab.owner), slab.owner, |apps|)
    ensures StartEffect(AppNames(apps), name, old(EstateOf(apps, slab)), EstateOf(apps, slab), response)
  {
    hide App.Valid, Claims, ConnsKept, MioTokenSlab.Valid, StartOutcome, AfterStart, App.Snap, MioTokenSlab.Now;
    ConnsKeptSelf(slab.owner, |apps|);
    ghost var before := EstateOf(apps, slab);
    var found := IndexOf(AppNames(apps), name);
    if found.None? {
      return AppNotFound(name, AppNames(apps));
    }
    var r := StartOne(apps, found.value, slab);
    assert Snaps(apps) == before.apps[found.value := Snaps(apps)[found.value]];
    assert StartOutcome(before.apps[found.value], Snaps(apps)[found.value], before.pool, r);
    return if r.Ok? then Started(name) else Error;
  }

  /** Stops the app with a name. */
  method HandleStop(name: Name, force: bool, apps: seq<App>) returns (response: Response)
    requires InPlace(apps) && AllValid(apps)
    modifies apps
    ensures AllValid(apps) && Helds(apps) == old(Helds(apps))
    ensures StopEffect(AppNames(apps), name, force, old(Snaps(apps)), Snaps(apps), response)
  {
    hide App.Valid, StopOutcome, App.Snap;
    ghost var before := Snaps(apps);
    var found := IndexOf(AppNames(apps), name);
    if found.None? {
      return AppNotFound(name, AppNames(apps));
    }
    var r := StopOne(apps, found.value, force);
    assert Snaps(apps) == before[found.value := Snaps(apps)[found.value]];
    assert StopOutcome(before[found.value], Snaps(apps)[found.value], force, r);
    return if r.Ok? then Response.Stopped(name, r.value) else Error;
  }

  /** Carries out one request; a line that is no request is answered with an error. */
  method HandleRequest(request: Option<Request>, apps: seq<App>, slab: MioTokenSlab) returns (response: Response)
    requires InPlace(apps) && AllValid(apps) && AllClaim(apps, slab.owner) && slab.Valid()
    modifies apps, slab
    ensures AllValid(apps) && AllClaim(apps, slab.owner) && slab.Valid()
    ensures ConnsKept(old(slab.owner), slab.owner, |apps|)
    ensures Effect(AppNames(apps), request, old(EstateOf(apps, slab)), EstateOf(apps, slab), response)
  {
    hide App.Valid, Claims, ConnsKept, MioTokenSlab.Valid, Answers, App.Snap, StartEffect, StopEffect, StartOutcome,
      StopOutcome, MioTokenSlab.Now;
    ConnsKeptSelf(slab.owner, |apps|);
    match request
    case Some(Start(name)) =>
      response := HandleStart(name, apps, slab);
    case Some(StartAll) =>
      var results := Fleet.StartAll(apps, slab);
      return StartedAll(NamesOf(AppNames(apps), results, true), NamesOf(AppNames(apps), results, false));
    case Some(Stop(name, force)) =>
      response := HandleStop(name, force, apps);
    case Some(StopAll(force)) =>
      var results := Fleet.StopAll(apps, force);
      return StoppedAll(NamesOf(AppNames(apps), results, true), NamesOf(AppNames(apps), results, false));
    case _ =>
      response := HandleQuery(request, apps);
  }
}
