/**
 * One time step of the solar-system model, lll/solar_model.py: every
 * star turns the planets whose ID is 11 times its own, and each such
 * planet, right after it turns, turns the satellites whose ID is 11 times
 * the planet's. Python's `ID / 11 == star_ID` is a float division; for
 * IDs of magnitude below 2^53 it holds exactly when the ID is 11 times
 * the other, which is how it is written here.
 *
 * The time step and the trigonometry are in the `Orbit` function.
 */
module SolarModel {
  import opened Wrappers
  import opened SolarObjects

  /** What the matching reads of a body: its class and ID, and the mass a rotation about it uses. */
  datatype Key = Key(kind: Kind, ID: int, m: real)

  function KeyOf(o: CosmicBody): Key
    reads o
  {
    Key(o.kind, o.ID, o.m)
  }

  function Keys(objs: seq<CosmicBody>): (r: seq<Key>)
    reads objs
    ensures |r| == |objs| && forall k :: 0 <= k < |objs| ==> r[k] == KeyOf(objs[k])
  {
    KeysTo(objs, |objs|)
  }

  /** The keys of the first n bodies. */
  function KeysTo(objs: seq<CosmicBody>, n: nat): (r: seq<Key>)
    requires n <= |objs|
    reads objs
    ensures |r| == n && forall k :: 0 <= k < n ==> r[k] == KeyOf(objs[k])
  {
    if n == 0 then [] else KeysTo(objs, n - 1) + [KeyOf(objs[n - 1])]
  }

  function States(objs: seq<CosmicBody>): (r: seq<Motion>)
    reads objs
    ensures |r| == |objs| && forall k :: 0 <= k < |objs| ==> r[k] == objs[k].State()
  {
    StatesTo(objs, |objs|)
  }

  /** The positions and V_tg of the first n bodies. */
  function StatesTo(objs: seq<CosmicBody>, n: nat): (r: seq<Motion>)
    requires n <= |objs|
    reads objs
    ensures |r| == n && forall k :: 0 <= k < n ==> r[k] == objs[k].State()
  {
    if n == 0 then [] else StatesTo(objs, n - 1) + [objs[n - 1].State()]
  }

  /** `body.ID / 11 == centre.ID`. */
  predicate Orbits(body: Key, centre: Key)
  {
    body.ID == 11 * centre.ID
  }

  /** One rotation: the body at index `body` about the one at `centre`, as a planet (V_tg set) or as a satellite. */
  datatype Event = Event(body: nat, centre: nat, planet: bool)

  /** A rotation the step may do: a planet-class body about a star that it orbits. */
  predicate PlanetTurn(keys: seq<Key>, e: Event)
  {
    e.planet && e.body < |keys| && e.centre < |keys|
    && keys[e.centre].kind == StarKind && IsPlanet(keys[e.body].kind) && Orbits(keys[e.body], keys[e.centre])
  }

  /** A rotation the step may do: a satellite about a planet-class body it orbits, which itself orbits a star. */
  predicate SatelliteTurn(keys: seq<Key>, e: Event)
  {
    !e.planet && e.body < |keys| && e.centre < |keys|
    && keys[e.body].kind == SateliteKind && IsPlanet(keys[e.centre].kind) && Orbits(keys[e.body], keys[e.centre])
    && exists s :: 0 <= s < |keys| && keys[s].kind == StarKind && Orbits(keys[e.centre], keys[s])
  }

  /** The rotations the innermost loop does for the planet at j, over the first n bodies. */
  function SatelliteEvents(keys: seq<Key>, j: nat, n: nat): seq<Event>
    requires j < |keys| && n <= |keys|
  {
    if n == 0 then []
    else
      SatelliteEvents(keys, j, n - 1)
      + if keys[n - 1].kind == SateliteKind && Orbits(keys[n - 1], keys[j]) then [Event(n - 1, j, false)] else []
  }

  /** The rotations the middle loop does for the star at i, over the first n bodies: each matched planet, then its satellites. */
  function PlanetEvents(keys: seq<Key>, i: nat, n: nat): seq<Event>
    requires i < |keys| && n <= |keys|
  {
    if n == 0 then []
    else
      var p := n - 1;
      PlanetEvents(keys, i, p)
      + if IsPlanet(keys[p].kind) && Orbits(keys[p], keys[i]) then [Event(p, i, true)] + SatelliteEvents(keys, p, |keys|) else []
  }

  /** The rotations the outer loop does over the first n bodies. */
  function StarEvents(keys: seq<Key>, n: nat): seq<Event>
    requires n <= |keys|
  {
    if n == 0 then []
    else StarEvents(keys, n - 1) + if keys[n - 1].kind == StarKind then PlanetEvents(keys, n - 1, |keys|) else []
  }

  /** All rotations of one step of `recalculate_space_objects_positions`, in the order it does them. */
  function Schedule(keys: seq<Key>): seq<Event>
  {
    StarEvents(keys, |keys|)
  }

  /**
   * One rotation on the states of all bodies, reading the centre as it is
   * at that moment. The step never names a body outside the list; such an
   * event would leave the states as they are.
   */
  function Apply(e: Event, keys: seq<Key>, st: seq<Motion>, orbit: Orbit): (r: seq<Motion>)
    requires |st| == |keys|
  {
    if e.body < |st| && e.centre < |st| then
      st[e.body := Rotated(st[e.body], st[e.centre].x, st[e.centre].y, keys[e.centre].m, orbit, e.planet)]
    else st
  }

  /** The rotations done one after the other. */
  function Run(es: seq<Event>, keys: seq<Key>, st: seq<Motion>, orbit: Orbit): (r: seq<Motion>)
    requires |st| == |keys|
    ensures |r| == |st|
  {
    if es == [] then st
    else Apply(es[|es| - 1], keys, Run(es[..|es| - 1], keys, st, orbit), orbit)
  }

  lemma {:induction false} RunAppend(a: seq<Event>, b: seq<Event>, keys: seq<Key>, st: seq<Motion>, orbit: Orbit)
    requires |st| == |keys|
    ensures Run(a + b, keys, st, orbit) == Run(b, keys, Run(a, keys, st, orbit), orbit)
    decreases |b|
  {
    if b == [] {
      assert a + b == a;
    } else {
      assert (a + b)[..|a + b| - 1] == a + b[..|b| - 1];
      RunAppend(a, b[..|b| - 1], keys, st, orbit);
    }
  }

  /** A body that no rotation moves keeps its position and V_tg. */
  lemma {:induction false} Untouched(es: seq<Event>, keys: seq<Key>, st: seq<Motion>, orbit: Orbit, k: nat)
    requires |st| == |keys| && k < |st|
    requires forall j :: 0 <= j < |es| ==> es[j].body != k
    ensures Run(es, keys, st, orbit)[k] == st[k]
  {
    if es != [] {
      Untouched(es[..|es| - 1], keys, st, orbit, k);
    }
  }

  /**
   * The step moves only what the matching rule names: planets and
   * satellites about a star they orbit, and satellites about a
   * planet-class body that orbits a star; every other body keeps its
   * position and V_tg, stars among them.
   */
  lemma StepMovesOnlyMatched(keys: seq<Key>, st: seq<Motion>, orbit: Orbit, k: nat)
    requires |st| == |keys| && k < |keys|
    requires forall c :: 0 <= c < |keys| && keys[c].kind == StarKind ==> !Orbits(keys[k], keys[c])
    requires keys[k].kind == SateliteKind ==> forall c :: 0 <= c < |keys| && IsPlanet(keys[c].kind) && Orbits(keys[k], keys[c]) ==>
      forall s :: 0 <= s < |keys| && keys[s].kind == StarKind ==> !Orbits(keys[c], keys[s])
    ensures Run(Schedule(keys), keys, st, orbit)[k] == st[k]
  {
    var es := Schedule(keys);
    StarEventsSound(keys, |keys|);
    Untouched(es, keys, st, orbit, k);
  }

  /** A rotation the matching rule allows. */
  predicate Allowed(keys: seq<Key>, e: Event)
  {
    PlanetTurn(keys, e) || SatelliteTurn(keys, e)
  }

  lemma {:induction false} SatelliteEventsSound(keys: seq<Key>, j: nat, n: nat)
    requires j < |keys| && n <= |keys|
    ensures forall k :: 0 <= k < |SatelliteEvents(keys, j, n)| ==>
      var e := SatelliteEvents(keys, j, n)[k];
      !e.planet && e.centre == j && e.body < n && keys[e.body].kind == SateliteKind && Orbits(keys[e.body], keys[j])
  {
    if n > 0 {
      SatelliteEventsSound(keys, j, n - 1);
    }
  }

  lemma {:induction false} PlanetEventsSound(keys: seq<Key>, i: nat, n: nat)
    requires i < |keys| && n <= |keys| && keys[i].kind == StarKind
    ensures forall k :: 0 <= k < |PlanetEvents(keys, i, n)| ==> Allowed(keys, PlanetEvents(keys, i, n)[k])
  {
    if n > 0 {
      var p := n - 1;
      PlanetEventsSound(keys, i, p);
      if IsPlanet(keys[p].kind) && Orbits(keys[p], keys[i]) {
        PlanetRoundSound(keys, i, p);
      } else {
        assert PlanetEvents(keys, i, n) == PlanetEvents(keys, i, p) + [];
      }
    }
  }

  /** The rotations one matched planet adds: itself about the star, then its satellites about it. */
  lemma PlanetRoundSound(keys: seq<Key>, i: nat, p: nat)
    requires i < |keys| && p < |keys| && keys[i].kind == StarKind && IsPlanet(keys[p].kind) && Orbits(keys[p], keys[i])
    ensures forall k :: 0 <= k < |[Event(p, i, true)] + SatelliteEvents(keys, p, |keys|)| ==>
      Allowed(keys, ([Event(p, i, true)] + SatelliteEvents(keys, p, |keys|))[k])
  {
    var sat := SatelliteEvents(keys, p, |keys|);
    SatelliteEventsSound(keys, p, |keys|);
    forall k | 0 <= k < |sat|
      ensures SatelliteTurn(keys, sat[k])
    {
      assert keys[i].kind == StarKind && Orbits(keys[sat[k].centre], keys[i]);
    }
  }

  /**
   * Every rotation of the step is a planet-class body about a star it
   * orbits, or a satellite about a planet-class body it orbits that itself
   * orbits a star: only stars are outer centres.
   */
  lemma {:induction false} StarEventsSound(keys: seq<Key>, n: nat)
    requires n <= |keys|
    ensures forall k :: 0 <= k < |StarEvents(keys, n)| ==> Allowed(keys, StarEvents(keys, n)[k])
  {
    if n > 0 {
      StarEventsSound(keys, n - 1);
      if keys[n - 1].kind == StarKind {
        PlanetEventsSound(keys, n - 1, |keys|);
      } else {
        assert StarEvents(keys, n) == StarEvents(keys, n - 1) + [];
      }
    }
  }

  lemma {:induction false} SatelliteEventsGrow(keys: seq<Key>, j: nat, n: nat, m: nat)
    requires j < |keys| && n <= m <= |keys|
    ensures SatelliteEvents(keys, j, n) <= SatelliteEvents(keys, j, m)
    decreases m - n
  {
    if n < m {
      SatelliteEventsGrow(keys, j, n, m - 1);
    }
  }

  lemma {:induction false} PlanetEventsGrow(keys: seq<Key>, i: nat, n: nat, m: nat)
    requires i < |keys| && n <= m <= |keys|
    ensures PlanetEvents(keys, i, n) <= PlanetEvents(keys, i, m)
    decreases m - n
  {
    if n < m {
      PlanetEventsGrow(keys, i, n, m - 1);
      var p := m - 1;
      var added := if IsPlanet(keys[p].kind) && Orbits(keys[p], keys[i]) then [Event(p, i, true)] + SatelliteEvents(keys, p, |keys|) else [];
      assert PlanetEvents(keys, i, m) == PlanetEvents(keys, i, p) + added;
    }
  }

  lemma {:induction false} StarEventsGrow(keys: seq<Key>, n: nat, m: nat)
    requires n <= m <= |keys|
    ensures StarEvents(keys, n) <= StarEvents(keys, m)
    decreases m - n
  {
    if n < m {
      StarEventsGrow(keys, n, m - 1);
    }
  }

  /**
   * Every planet-class body (a satellite included) whose ID is 11 times a
   * star's is turned about that star, and every satellite whose ID is 11
   * times such a body's is turned about it, right after it.
   */
  lemma MatchedAreTurned(keys: seq<Key>, s: nat, p: nat, t: nat)
    requires s < |keys| && p < |keys| && t < |keys|
    requires keys[s].kind == StarKind && IsPlanet(keys[p].kind) && Orbits(keys[p], keys[s])
    ensures Event(p, s, true) in Schedule(keys)
    ensures keys[t].kind == SateliteKind && Orbits(keys[t], keys[p]) ==> Event(t, p, false) in Schedule(keys)
  {
    var before := StarEvents(keys, s);
    var round := PlanetEvents(keys, s, |keys|);
    var sat := SatelliteEvents(keys, p, |keys|);
    var at := |before| + |PlanetEvents(keys, s, p)|;
    StarMatched(keys, s);
    PlanetMatched(keys, s, p);
    assert round[at - |before|] == Event(p, s, true);
    assert Schedule(keys)[at] == (before + round)[at];
    if keys[t].kind == SateliteKind && Orbits(keys[t], keys[p]) {
      SatelliteMatched(keys, p, t);
      var u := at + 1 + |SatelliteEvents(keys, p, t)|;
      assert round[u - |before|] == sat[u - at - 1];
      assert Schedule(keys)[u] == (before + round)[u];
    }
  }

  /** The satellite at t, when it orbits the body at p, is turned in the innermost loop at the place after the earlier ones. */
  lemma SatelliteMatched(keys: seq<Key>, p: nat, t: nat)
    requires p < |keys| && t < |keys| && keys[t].kind == SateliteKind && Orbits(keys[t], keys[p])
    ensures |SatelliteEvents(keys, p, t)| < |SatelliteEvents(keys, p, |keys|)|
    ensures SatelliteEvents(keys, p, |keys|)[|SatelliteEvents(keys, p, t)|] == Event(t, p, false)
  {
    var before := SatelliteEvents(keys, p, t);
    var upTo := SatelliteEvents(keys, p, t + 1);
    assert upTo == before + [Event(t, p, false)];
    SatelliteEventsGrow(keys, p, t + 1, |keys|);
    assert upTo[|before|] == Event(t, p, false);
  }

  /** The planet at p, when it orbits the star at s, is turned right after the earlier planets' rounds, its satellites after it. */
  lemma PlanetMatched(keys: seq<Key>, s: nat, p: nat)
    requires s < |keys| && p < |keys| && IsPlanet(keys[p].kind) && Orbits(keys[p], keys[s])
    ensures PlanetEvents(keys, s, p) + ([Event(p, s, true)] + SatelliteEvents(keys, p, |keys|)) <= PlanetEvents(keys, s, |keys|)
  {
    assert PlanetEvents(keys, s, p + 1) == PlanetEvents(keys, s, p) + ([Event(p, s, true)] + SatelliteEvents(keys, p, |keys|));
    PlanetEventsGrow(keys, s, p + 1, |keys|);
  }

  /** The star at s turns its planets after the earlier stars' rounds. */
  lemma StarMatched(keys: seq<Key>, s: nat)
    requires s < |keys| && keys[s].kind == StarKind
    ensures StarEvents(keys, s) + PlanetEvents(keys, s, |keys|) <= Schedule(keys)
  {
    assert StarEvents(keys, s + 1) == StarEvents(keys, s) + PlanetEvents(keys, s, |keys|);
    StarEventsGrow(keys, s + 1, |keys|);
  }

  /** `at` gives each body of the list its index: no body is in the list twice. */
  ghost predicate Indexed(objs: seq<CosmicBody>, at: map<CosmicBody, nat>)
  {
    forall k :: 0 <= k < |objs| ==> objs[k] in at && at[objs[k]] == k
  }

  /** The bodies have the given keys and stand where the rotations `es`, done from `st0`, leave them. */
  ghost predicate Reached(objs: seq<CosmicBody>, keys: seq<Key>, es: seq<Event>, st0: seq<Motion>, orbit: Orbit)
    reads objs
  {
    Keys(objs) == keys && |st0| == |keys| && States(objs) == Run(es, keys, st0, orbit)
  }

  /**
   * `recalculate_space_objects_positions(space_objects, dt)`: the bodies
   * end as the rotations of Schedule leave them, one after the other, and
   * no class, ID or mass changes.
   */
  method RecalculatePositions(objs: seq<CosmicBody>, orbit: Orbit)
    requires Distinct(objs)
    modifies objs
    ensures Keys(objs) == old(Keys(objs))
    ensures States(objs) == Run(Schedule(Keys(objs)), Keys(objs), old(States(objs)), orbit)
  {
    ghost var at := IndexMap(objs);
    TurnStars(objs, orbit, at);
  }

  /** A list that holds no body twice has an index map. */
  lemma IndexMap(objs: seq<CosmicBody>) returns (at: map<CosmicBody, nat>)
    requires Distinct(objs)
    ensures Indexed(objs, at)
  {
    at := map k | 0 <= k < |objs| :: objs[k] := k;
  }

  /** The outer loop of `recalculate_space_objects_positions`, over every body in list order. */
  method TurnStars(objs: seq<CosmicBody>, orbit: Orbit, ghost at: map<CosmicBody, nat>)
    requires Indexed(objs, at)
    modifies objs
    ensures Reached(objs, old(Keys(objs)), Schedule(old(Keys(objs))), old(States(objs)), orbit)
  {
    var keys := Keys(objs);
    ghost var st0 := States(objs);
    for i := 0 to |objs|
      invariant Reached(objs, keys, StarEvents(keys, i), st0, orbit)
    {
      TurnStar(objs, i, keys, orbit, st0, at);
    }
  }

  /** The body of the outer loop: when the body at i is a star, the middle loop turns its planets. */
  method TurnStar(objs: seq<CosmicBody>, i: nat, keys: seq<Key>, orbit: Orbit, ghost st0: seq<Motion>, ghost at: map<CosmicBody, nat>)
    requires Indexed(objs, at) && i < |objs| == |keys|
    requires Reached(objs, keys, StarEvents(keys, i), st0, orbit)
    modifies objs
    ensures Reached(objs, keys, StarEvents(keys, i + 1), st0, orbit)
  {
    var star := objs[i];
    assert KeyOf(star) == keys[i];
    StarStep(keys, i, st0, orbit);
    if star.kind == StarKind {
      TurnAboutStar(objs, i, keys, orbit, at);
    }
  }

  lemma StarStep(keys: seq<Key>, i: nat, st: seq<Motion>, orbit: Orbit)
    requires i < |keys| && |st| == |keys|
    ensures keys[i].kind == StarKind ==>
      Run(StarEvents(keys, i + 1), keys, st, orbit) == Run(PlanetEvents(keys, i, |keys|), keys, Run(StarEvents(keys, i), keys, st, orbit), orbit)
    ensures keys[i].kind != StarKind ==> StarEvents(keys, i + 1) == StarEvents(keys, i)
  {
    if keys[i].kind == StarKind {
      RunAppend(StarEvents(keys, i), PlanetEvents(keys, i, |keys|), keys, st, orbit);
    } else {
      assert StarEvents(keys, i + 1) == StarEvents(keys, i) + [];
    }
  }

  /** The middle loop for the star at i: each body matched as its planet turns about it, then that planet's satellites about the planet. */
  method TurnAboutStar(objs: seq<CosmicBody>, i: nat, keys: seq<Key>, orbit: Orbit, ghost at: map<CosmicBody, nat>)
    requires Indexed(objs, at) && i < |objs| == |keys|
    requires Keys(objs) == keys
    modifies objs
    ensures Reached(objs, keys, PlanetEvents(keys, i, |keys|), old(States(objs)), orbit)
  {
    ghost var st0 := States(objs);
    var starID := objs[i].ID;
    assert starID == keys[i].ID by { assert KeyOf(objs[i]) == keys[i]; }
    for n := 0 to |objs|
      invariant Reached(objs, keys, PlanetEvents(keys, i, n), st0, orbit)
    {
      PlanetRound(objs, i, n, starID, keys, orbit, st0, at);
    }
  }

  /** One round of the middle loop: the body at n, when it is a planet-class body of the star, turns with its satellites. */
  method PlanetRound(objs: seq<CosmicBody>, i: nat, n: nat, starID: int, keys: seq<Key>, orbit: Orbit, ghost st0: seq<Motion>, ghost at: map<CosmicBody, nat>)
    requires Indexed(objs, at) && i < |objs| == |keys| && n < |objs| && starID == keys[i].ID
    requires Reached(objs, keys, PlanetEvents(keys, i, n), st0, orbit)
    modifies objs
    ensures Reached(objs, keys, PlanetEvents(keys, i, n + 1), st0, orbit)
  {
    var planet := objs[n];
    assert KeyOf(planet) == keys[n];
    PlanetStep(keys, i, n, st0, orbit);
    if IsPlanet(planet.kind) && planet.ID == 11 * starID {
      TurnPlanet(objs, n, i, keys, orbit, at);
    }
  }

  /** The body of the middle loop for a matched planet: it turns about the star, then its satellites about it. */
  method TurnPlanet(objs: seq<CosmicBody>, n: nat, i: nat, keys: seq<Key>, orbit: Orbit, ghost at: map<CosmicBody, nat>)
    requires Indexed(objs, at) && n < |objs| && i < |objs| && Keys(objs) == keys
    modifies objs
    ensures Keys(objs) == keys
    ensures States(objs) == Run(SatelliteEvents(keys, n, |keys|), keys, Apply(Event(n, i, true), keys, old(States(objs)), orbit), orbit)
  {
    Turn(objs, n, i, true, keys, orbit, at);
    TurnSatellites(objs, n, keys, orbit, at);
  }

  lemma PlanetStep(keys: seq<Key>, i: nat, n: nat, st: seq<Motion>, orbit: Orbit)
    requires i < |keys| && n < |keys| && |st| == |keys|
    ensures IsPlanet(keys[n].kind) && Orbits(keys[n], keys[i]) ==>
      Run(PlanetEvents(keys, i, n + 1), keys, st, orbit)
      == Run(SatelliteEvents(keys, n, |keys|), keys, Apply(Event(n, i, true), keys, Run(PlanetEvents(keys, i, n), keys, st, orbit), orbit), orbit)
    ensures !(IsPlanet(keys[n].kind) && Orbits(keys[n], keys[i])) ==> PlanetEvents(keys, i, n + 1) == PlanetEvents(keys, i, n)
  {
    var done := PlanetEvents(keys, i, n);
    var e := Event(n, i, true);
    if IsPlanet(keys[n].kind) && Orbits(keys[n], keys[i]) {
      assert PlanetEvents(keys, i, n + 1) == done + [e] + SatelliteEvents(keys, n, |keys|);
      RunAppend(done, [e], keys, st, orbit);
      RunAppend(done + [e], SatelliteEvents(keys, n, |keys|), keys, st, orbit);
      assert ([e])[..0] == [];
    } else {
      assert PlanetEvents(keys, i, n + 1) == done + [];
    }
  }

  /** The innermost loop for the planet at j: each satellite matched to it turns about it. */
  method TurnSatellites(objs: seq<CosmicBody>, j: nat, keys: seq<Key>, orbit: Orbit, ghost at: map<CosmicBody, nat>)
    requires Indexed(objs, at) && j < |objs| && Keys(objs) == keys
    modifies objs
    ensures Keys(objs) == keys
    ensures States(objs) == Run(SatelliteEvents(keys, j, |objs|), keys, old(States(objs)), orbit)
  {
    ghost var st0 := States(objs);
    var planetID := objs[j].ID;
    assert planetID == keys[j].ID;
    for n := 0 to |objs|
      invariant Reached(objs, keys, SatelliteEvents(keys, j, n), st0, orbit)
    {
      SatelliteRound(objs, j, n, planetID, keys, orbit, st0, at);
    }
  }

  /** One round of the innermost loop: the body at n, when it is a satellite of the planet, turns about it. */
  method SatelliteRound(objs: seq<CosmicBody>, j: nat, n: nat, planetID: int, keys: seq<Key>, orbit: Orbit, ghost st0: seq<Motion>, ghost at: map<CosmicBody, nat>)
    requires Indexed(objs, at) && j < |objs| == |keys| && n < |objs| && planetID == keys[j].ID
    requires Reached(objs, keys, SatelliteEvents(keys, j, n), st0, orbit)
    modifies objs
    ensures Reached(objs, keys, SatelliteEvents(keys, j, n + 1), st0, orbit)
  {
    var satellite := objs[n];
    assert KeyOf(satellite) == keys[n];
    SatelliteStep(keys, j, n, st0, orbit);
    if satellite.kind == SateliteKind && satellite.ID == 11 * planetID {
      Turn(objs, n, j, false, keys, orbit, at);
    }
  }

  lemma SatelliteStep(keys: seq<Key>, j: nat, n: nat, st: seq<Motion>, orbit: Orbit)
    requires j < |keys| && n < |keys| && |st| == |keys|
    ensures keys[n].kind == SateliteKind && Orbits(keys[n], keys[j]) ==>
      Run(SatelliteEvents(keys, j, n + 1), keys, st, orbit) == Apply(Event(n, j, false), keys, Run(SatelliteEvents(keys, j, n), keys, st, orbit), orbit)
    ensures !(keys[n].kind == SateliteKind && Orbits(keys[n], keys[j])) ==> SatelliteEvents(keys, j, n + 1) == SatelliteEvents(keys, j, n)
  {
    var es := SatelliteEvents(keys, j, n + 1);
    if keys[n].kind == SateliteKind && Orbits(keys[n], keys[j]) {
      assert es[..|es| - 1] == SatelliteEvents(keys, j, n);
    } else {
      assert es == SatelliteEvents(keys, j, n) + [];
    }
  }

  /** One rotation on the list: `rotate_planet_around` or `rotate_satelite_around` of the body at n about the one at c. */
  method Turn(objs: seq<CosmicBody>, n: nat, c: nat, planet: bool, keys: seq<Key>, orbit: Orbit, ghost at: map<CosmicBody, nat>)
    requires Indexed(objs, at) && n < |objs| && c < |objs| && Keys(objs) == keys
    modifies objs
    ensures Keys(objs) == keys
    ensures States(objs) == Apply(Event(n, c, planet), keys, old(States(objs)), orbit)
  {
    ghost var before := States(objs);
    if planet {
      objs[n].RotatePlanetAround(objs[c], orbit);
    } else {
      objs[n].RotateSateliteAround(objs[c], orbit);
    }
    assert forall k :: 0 <= k < |objs| && k != n ==> objs[k] != objs[n];
    assert States(objs) == before[n := objs[n].State()];
    assert Keys(objs) == keys;
  }
}
