/** The shared slab of event tokens, and the ledger of who holds which token. */
module TokenSlab {
  import opened Basics
  import opened Lifecycle
  import Kernel

  type Token = nat

  /** Who a token was handed out to. An app holds three: slot 0 for its pidfd, 1 for stdout,
      2 for stderr. A leaked token is allocated but nobody will ever free it. */
  datatype Owner = AppFd(app: nat, slot: nat) | ControlConn | LogConn | Leaked

  type Ledger = map<Token, Owner>

  /** Tokens leaked so far, and the failures they were leaked by: launches and registrations that
      did not go through. */
  datatype Losses = Losses(leaked: nat, failures: nat)

  /** Losses only grow, and failures pay for them, each for three tokens at most. */
  ghost predicate PaidFor(before: Losses, after: Losses) {
    && before.failures <= after.failures
    && before.leaked <= after.leaked <= before.leaked + 3 * (after.failures - before.failures)
  }

  /** All that matters of a slab to those who want tokens: how many there can be, how many are out, and
      what was lost. */
  datatype Pool = Pool(capacity: nat, out: nat, lost: Losses) {
    predicate Has(n: nat) {
      out + n <= capacity
    }

    /** How many tokens are left. */
    function Left(): nat {
      Max(0, capacity - out)
    }

    /** `n` more tokens are out. */
    function Take(n: nat): Pool {
      this.(out := out + n)
    }

    /** A failure has leaked `n` more tokens. */
    function Leak(n: nat): Pool {
      Pool(capacity, out + n, Losses(lost.leaked + n, lost.failures + 1))
    }
  }

  ghost function LeakedTokens(ledger: Ledger): set<Token> {
    set t | t in ledger && ledger[t] == Leaked
  }

  class MioTokenSlab {
    /** Where this slab's tokens begin; those below have fixed uses. */
    const offset: nat
    const capacity: nat
    /** Slots ever used, and the stack of those vacant again: a vacant slot is reused before
        another one is opened. */
    var used: nat
    var vacant: seq<nat>
    ghost var owner: Ledger
    /** How many launches and registrations have failed. */
    ghost var failures: nat

    ghost predicate Valid()
      reads this
    {
      && used <= capacity
      && (forall i :: 0 <= i < |vacant| ==> vacant[i] < used)
      && (forall i, j :: 0 <= i < j < |vacant| ==> vacant[i] != vacant[j])
      && (forall t :: t in owner <==> offset <= t < offset + used && t - offset !in vacant)
      && |owner| + |vacant| == used
    }

    constructor (capacity: nat, offset: nat)
      ensures Valid() && owner == map[] && failures == 0
      ensures this.capacity == capacity && this.offset == offset
    {
      this.capacity, this.offset := capacity, offset;
      used, vacant, owner, failures := 0, [], map[], 0;
    }

    ghost function Now(): (p: Pool)
      reads this
      ensures p.capacity == capacity && p.out == |owner|
      ensures p.lost.failures == failures && p.lost.leaked == |LeakedTokens(owner)|
    {
      Pool(capacity, |owner|, Losses(|LeakedTokens(owner)|, failures))
    }

    /** Number of tokens handed out. */
    function Len(): (n: nat)
      requires Valid()
      reads this
      ensures n == |owner|
    {
      used - |vacant|
    }

    /** Hands out a token nobody holds, unless `capacity` tokens are out already. */
    method Allocate(ghost who: Owner) returns (r: Option<Token>)
      requires Valid()
      modifies this
      ensures Valid() && failures == old(failures)
      ensures r.None? <==> |old(owner)| >= capacity
      ensures r.None? ==> owner == old(owner)
      ensures r.Some? ==>
              && offset <= r.value < offset + capacity
              && r.value !in old(owner)
              && owner == old(owner)[r.value := who]
    {
      if Len() >= capacity {
        return None;
      }
      var key: nat;
      if vacant != [] {
        key := vacant[|vacant| - 1];
        vacant := vacant[..|vacant| - 1];
      } else {
        key := used;
        used := used + 1;
      }
      owner := owner[offset + key := who];
      r := Some(offset + key);
    }

    /** Takes back a token; the token must be out. */
    method Free(token: Token)
      requires Valid() && token in owner
      modifies this
      ensures Valid() && owner == old(owner) - {token} && failures == old(failures)
    {
      vacant := vacant + [token - offset];
      owner := owner - {token};
      assert old(owner).Keys == owner.Keys + {token};
    }

    /** Marks a token whose holder was dropped without freeing it. */
    ghost method Abandon(token: Token)
      requires Valid() && token in owner
      modifies this
      ensures Valid() && owner == old(owner)[token := Leaked] && failures == old(failures)
    {
      owner := owner[token := Leaked];
      assert owner.Keys == old(owner).Keys;
    }

    /** Notes that a launch or a registration failed. */
    ghost method Fail()
      requires Valid()
      modifies `failures
      ensures Valid() && failures == old(failures) + 1
    {
      failures := failures + 1;
    }
  }

  // Who holds what

  datatype Party = AppParty(app: nat) | ControlParty | LogParty

  predicate Belongs(o: Owner, p: Party) {
    match p
    case AppParty(app) => o.AppFd? && o.app == app
    case ControlParty => o.ControlConn?
    case LogParty => o.LogConn?
  }

  /** Only entries of one party changed, apart from tokens that party leaked. */
  ghost predicate OthersKept(before: Ledger, after: Ledger, p: Party) {
    && (forall t :: t in before && !Belongs(before[t], p) ==> t in after && after[t] == before[t])
    && (forall t :: t in after && !Belongs(after[t], p) && after[t] != Leaked ==> t in before && before[t] == after[t])
  }

  /** The tokens of a running app. */
  function Held(s: State): Option<AppRtTokens> {
    match s
    case Stopped(_) => None
    case Running(rt) => Some(rt.tokens)
  }

  function TokenSet(held: Option<AppRtTokens>): set<Token> {
    match held
    case None => {}
    case Some(k) => {k.pidfd, k.stdout, k.stderr}
  }

  /** The ledger gives an app exactly its own three tokens when it runs, and none otherwise. */
  ghost predicate AppClaims(ledger: Ledger, id: nat, held: Option<AppRtTokens>) {
    && (held.Some? ==>
          var k := held.value;
          && k.pidfd in ledger && ledger[k.pidfd] == AppFd(id, 0)
          && k.stdout in ledger && ledger[k.stdout] == AppFd(id, 1)
          && k.stderr in ledger && ledger[k.stderr] == AppFd(id, 2))
    && forall t :: t in ledger && Belongs(ledger[t], AppParty(id)) ==> t in TokenSet(held)
  }

  /** The ledger gives an app exactly the tokens of the slots it has acquired so far. */
  ghost predicate HoldsExactly(ledger: Ledger, id: nat, held: seq<Token>) {
    && (forall k :: 0 <= k < |held| ==> held[k] in ledger && ledger[held[k]] == AppFd(id, k))
    && forall t :: t in ledger && Belongs(ledger[t], AppParty(id)) ==> t in held
  }

  lemma HeldNone(ledger: Ledger, id: nat)
    ensures AppClaims(ledger, id, None) <==> HoldsExactly(ledger, id, [])
  {
  }

  lemma HeldThree(ledger: Ledger, id: nat, held: seq<Token>)
    requires HoldsExactly(ledger, id, held) && |held| == 3
    ensures AppClaims(ledger, id, Some(AppRtTokens(held[0], held[1], held[2])))
  {
  }

  /** Handing an app one more token. */
  lemma HoldsMore(ledger: Ledger, id: nat, held: seq<Token>, t: Token)
    requires HoldsExactly(ledger, id, held) && t !in ledger
    ensures var after := ledger[t := AppFd(id, |held|)];
            && HoldsExactly(after, id, held + [t])
            && OthersKept(ledger, after, AppParty(id))
            && LeakedTokens(after) == LeakedTokens(ledger)
  {
  }

  /** Taking back the three tokens of an app. */
  lemma HoldsNoMore(ledger: Ledger, id: nat, k: AppRtTokens)
    requires AppClaims(ledger, id, Some(k))
    ensures k.pidfd in ledger && k.stdout in ledger - {k.pidfd} && k.stderr in ledger - {k.pidfd} - {k.stdout}
    ensures var after := ledger - {k.pidfd} - {k.stdout} - {k.stderr};
            && AppClaims(after, id, None)
            && OthersKept(ledger, after, AppParty(id))
            && LeakedTokens(after) == LeakedTokens(ledger)
  {
  }

  lemma OthersKeptSelf(a: Ledger, p: Party)
    ensures OthersKept(a, a, p)
  {
  }

  lemma OthersKeptTransitive(a: Ledger, b: Ledger, c: Ledger, p: Party)
    requires OthersKept(a, b, p) && OthersKept(b, c, p)
    ensures OthersKept(a, c, p)
  {
  }

  /** The ledger gives a server exactly the tokens of its connections. */
  ghost predicate ConnClaims(ledger: Ledger, tokens: set<Token>, who: Owner) {
    forall t :: t in tokens <==> t in ledger && ledger[t] == who
  }

  lemma ClaimAdded(ledger: Ledger, tokens: set<Token>, t: Token, who: Owner, p: Party)
    requires ConnClaims(ledger, tokens, who) && t !in ledger && Belongs(who, p)
    ensures ConnClaims(ledger[t := who], tokens + {t}, who)
    ensures t !in tokens
    ensures OthersKept(ledger, ledger[t := who], p)
    ensures LeakedTokens(ledger[t := who]) == LeakedTokens(ledger)
  {
  }

  lemma ClaimDropped(ledger: Ledger, tokens: set<Token>, t: Token, who: Owner, p: Party)
    requires ConnClaims(ledger, tokens, who) && t in tokens && Belongs(who, p)
    ensures t in ledger
    ensures ConnClaims(ledger - {t}, tokens - {t}, who)
    ensures OthersKept(ledger, ledger - {t}, p)
    ensures LeakedTokens(ledger - {t}) == LeakedTokens(ledger)
  {
  }

  lemma NotLeaked(ledger: Ledger, t: Token, who: Owner)
    requires t !in ledger && who != Leaked
    ensures LeakedTokens(ledger[t := who]) == LeakedTokens(ledger)
  {
  }

  lemma OneMoreLeaked(ledger: Ledger, t: Token)
    requires t in ledger && ledger[t] != Leaked
    ensures |LeakedTokens(ledger[t := Leaked])| == |LeakedTokens(ledger)| + 1
  {
    var before, after := LeakedTokens(ledger), LeakedTokens(ledger[t := Leaked]);
    assert after == before + {t} && t !in before;
  }

  lemma ClaimLeaked(ledger: Ledger, tokens: set<Token>, t: Token, who: Owner, p: Party)
    requires ConnClaims(ledger, tokens, who) && t !in ledger && Belongs(who, p)
    ensures ConnClaims(ledger[t := who][t := Leaked], tokens, who)
    ensures OthersKept(ledger, ledger[t := who][t := Leaked], p)
    ensures |LeakedTokens(ledger[t := who][t := Leaked])| == |LeakedTokens(ledger)| + 1
  {
    hide LeakedTokens;
    NotLeaked(ledger, t, who);
    OneMoreLeaked(ledger[t := who], t);
  }

  /** What a round of taking in connections depends on and changes. */
  datatype Room = Room(connected: nat, pool: Pool)

  /** How many of `pending` connections fit: as many as a server may still hold and as there are tokens
      left. The others are turned away. */
  function Fitting(pending: nat, maxConnections: nat, room: Room): (n: nat)
    ensures n <= pending
  {
    Min(pending, Min(Max(0, maxConnections - room.connected), room.pool.Left()))
  }

  /** A round of taking in connections, each of which the system lets be registered or not. Those that
      fit are taken in up to the first that cannot be registered: that one ends the round, and its
      token leaks. */
  function Admission(pending: seq<bool>, maxConnections: nat, room: Room): Room {
    var fit := Fitting(|pending|, maxConnections, room);
    match IndexOf(pending[..fit], false)
    case None => Room(room.connected + fit, room.pool.Take(fit))
    case Some(k) => Room(room.connected + k, room.pool.Take(k).Leak(1))
  }

  /** A round of taking in connections goes through unless one that fits cannot be registered. */
  predicate Admitted(pending: seq<bool>, maxConnections: nat, room: Room) {
    IndexOf(pending[..Fitting(|pending|, maxConnections, room)], false).None?
  }

  lemma AdmissionBegins(pending: seq<bool>, maxConnections: nat, room: Room)
    ensures pending[..0] == []
    ensures Admission([], maxConnections, room) == room && Admitted([], maxConnections, room)
  {
  }

  lemma AdmissionOfOne(registers: bool, maxConnections: nat, room: Room)
    ensures var fits := room.connected < maxConnections && room.pool.Has(1);
            && (Admitted([registers], maxConnections, room) <==> fits ==> registers)
            && Admission([registers], maxConnections, room) ==
               if !fits then room
               else if registers then Room(room.connected + 1, room.pool.Take(1))
               else Room(room.connected, room.pool.Leak(1))
  {
    assert [registers][..0] == [] && [registers][..1] == [registers];
    if !registers {
      IndexIs([false], false, 0);
    }
  }

  /** One more connection is looked at. */
  lemma AdmissionGoesOn(pending: seq<bool>, i: nat, maxConnections: nat, room: Room)
    requires i < |pending| && Admitted(pending[..i], maxConnections, room)
    ensures var now := Admission(pending[..i], maxConnections, room);
            Admission(pending[..i + 1], maxConnections, room) == Admission([pending[i]], maxConnections, now)
            && (Admitted(pending[..i + 1], maxConnections, room) <==> Admitted([pending[i]], maxConnections, now))
  {
    var fit, next := Fitting(i, maxConnections, room), Fitting(i + 1, maxConnections, room);
    assert pending[..i][..fit] == pending[..fit];
    if next == fit {
      assert pending[..i + 1][..next] == pending[..i][..fit];
      assert [pending[i]][..0] == [];
    } else {
      assert pending[..i + 1][..next] == pending[..i][..fit] + [pending[i]];
      assert [pending[i]][..1] == [pending[i]];
      if !pending[i] {
        IndexIs(pending[..i + 1][..next], false, i);
        IndexIs([false], false, 0);
      }
    }
  }

  /** A round that does not go through ends with the connection it fails at. */
  lemma AdmissionEnds(pending: seq<bool>, i: nat, maxConnections: nat, room: Room)
    requires i <= |pending| && !Admitted(pending[..i], maxConnections, room)
    ensures Admission(pending, maxConnections, room) == Admission(pending[..i], maxConnections, room)
    ensures !Admitted(pending, maxConnections, room)
  {
    var fit := Fitting(i, maxConnections, room);
    var k := IndexOf(pending[..i][..fit], false).value;
    var all := pending[..Fitting(|pending|, maxConnections, room)];
    assert pending[..i][..fit][..k] == all[..k];
    IndexIs(all, false, k);
  }

  /** A round leaks one token at most, and only by a failure. */
  lemma AdmissionIsPaidFor(pending: seq<bool>, maxConnections: nat, room: Room)
    ensures PaidFor(room.pool.lost, Admission(pending, maxConnections, room).pool.lost)
  {
  }

  /** Hands a token to a new connection and registers its socket. Without a free token the
      connection is turned away; if the socket cannot be registered, exactly that token leaks. */
  method RegisterConnection(slab: MioTokenSlab, registers: bool, ghost tokens: set<Token>, ghost who: Owner,
      ghost p: Party)
    returns (token: Option<Token>, ok: bool)
    requires slab.Valid() && ConnClaims(slab.owner, tokens, who) && Belongs(who, p)
    modifies slab
    ensures slab.Valid() && OthersKept(old(slab.owner), slab.owner, p)
    ensures ConnClaims(slab.owner, if token.Some? then tokens + {token.value} else tokens, who)
    ensures token.Some? ==> token.value !in tokens
    ensures var pool := old(slab.Now());
            && (token.Some? <==> pool.Has(1) && registers) && (ok <==> pool.Has(1) ==> registers)
            && slab.Now() == if !pool.Has(1) then pool else if registers then pool.Take(1) else pool.Leak(1)
  {
    hide ConnClaims, OthersKept, LeakedTokens, MioTokenSlab.Valid;
    ghost var before := slab.owner;
    OthersKeptSelf(before, p);
    token := slab.Allocate(who);
    ok := true;
    if token.Some? {
      ok := registers;
      if ok {
        ClaimAdded(before, tokens, token.value, who, p);
      } else {
        ClaimLeaked(before, tokens, token.value, who, p);
        slab.Abandon(token.value);
        slab.Fail();
        token := None;
      }
    }
  }

  /** Every app in a list has exactly its own tokens. */
  ghost predicate Claims(ledger: Ledger, helds: seq<Option<AppRtTokens>>) {
    forall i :: 0 <= i < |helds| ==> AppClaims(ledger, i, helds[i])
  }

  /** The whole ledger: every token is an app's, a connection's, or leaked. */
  ghost predicate Accounted(ledger: Ledger, apps: seq<Option<AppRtTokens>>, control: set<Token>, logs: set<Token>) {
    && Claims(ledger, apps)
    && (forall t :: t in ledger && ledger[t].AppFd? ==> ledger[t].app < |apps|)
    && ConnClaims(ledger, control, ControlConn)
    && ConnClaims(ledger, logs, LogConn)
  }

  function RunningCount(apps: seq<Option<AppRtTokens>>): nat {
    if apps == [] then 0
    else RunningCount(apps[..|apps| - 1]) + (if apps[|apps| - 1].Some? then 1 else 0)
  }

  function AllAppTokens(apps: seq<Option<AppRtTokens>>): set<Token> {
    if apps == [] then {} else AllAppTokens(apps[..|apps| - 1]) + TokenSet(apps[|apps| - 1])
  }

  lemma {:induction false} AppTokensAre(ledger: Ledger, apps: seq<Option<AppRtTokens>>)
    requires forall i :: 0 <= i < |apps| ==> AppClaims(ledger, i, apps[i])
    ensures forall t :: t in AllAppTokens(apps) <==> t in ledger && ledger[t].AppFd? && ledger[t].app < |apps|
  {
    if apps != [] {
      var init, last := apps[..|apps| - 1], apps[|apps| - 1];
      assert forall i :: 0 <= i < |init| ==> init[i] == apps[i];
      AppTokensAre(ledger, init);
      assert AppClaims(ledger, |init|, last);
    }
  }

  lemma ThreeTokens(ledger: Ledger, id: nat, held: Option<AppRtTokens>)
    requires AppClaims(ledger, id, held)
    ensures |TokenSet(held)| == if held.Some? then 3 else 0
    ensures forall t :: t in TokenSet(held) ==> t in ledger && Belongs(ledger[t], AppParty(id))
  {
    if held.Some? {
      var k := held.value;
      assert |{k.pidfd} + {k.stdout} + {k.stderr}| == 3;
      assert TokenSet(held) == {k.pidfd} + {k.stdout} + {k.stderr};
    }
  }

  lemma {:induction false} AppTokensCount(ledger: Ledger, apps: seq<Option<AppRtTokens>>)
    requires forall i :: 0 <= i < |apps| ==> AppClaims(ledger, i, apps[i])
    ensures |AllAppTokens(apps)| == 3 * RunningCount(apps)
  {
    hide AppClaims, TokenSet;
    if apps != [] {
      var init, last := apps[..|apps| - 1], apps[|apps| - 1];
      assert forall i :: 0 <= i < |init| ==> init[i] == apps[i];
      AppTokensCount(ledger, init);
      AppTokensAre(ledger, init);
      assert AppClaims(ledger, |init|, last);
      ThreeTokens(ledger, |init|, last);
      assert AllAppTokens(init) !! TokenSet(last);
    }
  }

  /** Every token has at most one holder, and the number of tokens out is three per running app,
      one per open connection, and the leaked ones. */
  lemma AllocatedCount(ledger: Ledger, apps: seq<Option<AppRtTokens>>, control: set<Token>, logs: set<Token>)
    requires Accounted(ledger, apps, control, logs)
    ensures AllAppTokens(apps) !! control !! logs
    ensures |ledger| == 3 * RunningCount(apps) + |control| + |logs| + |LeakedTokens(ledger)|
  {
    hide AppClaims, TokenSet, RunningCount;
    AppTokensAre(ledger, apps);
    AppTokensCount(ledger, apps);
    var leaked := LeakedTokens(ledger);
    assert ledger.Keys == AllAppTokens(apps) + control + logs + leaked;
    assert |AllAppTokens(apps) + control| == |AllAppTokens(apps)| + |control|;
    assert |AllAppTokens(apps) + control + logs| == |AllAppTokens(apps)| + |control| + |logs|;
    assert |ledger| == |ledger.Keys|;
  }

  /** An event's token has at most one receiver. */
  lemma OneReceiver(ledger: Ledger, apps: seq<Option<AppRtTokens>>, control: set<Token>, logs: set<Token>, t: Token,
      i: nat)
    requires Accounted(ledger, apps, control, logs)
    requires i < |apps| && t in TokenSet(apps[i])
    ensures t !in control && t !in logs
    ensures forall j :: 0 <= j < |apps| && j != i ==> t !in TokenSet(apps[j])
  {
    assert AppClaims(ledger, i, apps[i]);
    forall j | 0 <= j < |apps| && j != i ensures t !in TokenSet(apps[j]) {
      assert AppClaims(ledger, j, apps[j]);
    }
  }
}
