/**
 * `find_poi` (examples/random-walk.py): one map scan around a position,
 * then for every map cell an attempt to catch each wild encounter, throwing
 * the lowest ball ids first, and a search of every stop in range. Server
 * answers are oracles indexed by the map cell and the position in that
 * cell's list (and, for throws, by the throw's number at that encounter).
 */
module WalkPoi {
  import opened Util
  import opened Protocol
  import opened Capture

  /** The `GET_MAP_OBJECTS` response: `status` is tested for, `map_cells` is not. */
  datatype MapScan = MapScan(status: Option<int>, mapCells: seq<MapCell>)

  /** The `FORT_SEARCH` response. */
  datatype FortSearchReply = FortSearchReply(result: int, experienceAwarded: Option<int>)

  /**
   * The server's answers: `encounter(c)(k)` is the `ENCOUNTER` status for the
   * k-th encounter of cell c, `catchReply(c)(k)(j)` answers the j-th throw at
   * it, and `fortSearch(c)(k)` answers the search of the k-th fort of cell c.
   */
  datatype PoiServer = PoiServer(
    encounter: nat -> nat -> int,
    catchReply: nat -> nat -> nat -> CatchReply,
    fortSearch: nat -> nat -> FortSearchReply)

  /** The local state of `find_poi`: the ball list it consumes and what it returns. */
  datatype Haul = Haul(balls: seq<int>, spins: seq<Fort>, catches: seq<WildPokemon>, stardust: int, candy: int, xp: int)

  // ---------------------------------------------------------------------
  // The specification
  // ---------------------------------------------------------------------

  /**
   * Throwing at one encounter: the balls are thrown front first until an
   * answer has no status or a status 0, 1 or 3, or the balls run out; a
   * status 1 appends the encounter and adds the capture awards.
   */
  function Throw(h: Haul, p: WildPokemon, reply: nat -> CatchReply): Haul {
    var n := ThrowsFrom(StopThrowing, |h.balls|, reply, 0);
    if CaughtFrom(StopThrowing, |h.balls|, reply, 0) then
      var a := reply(n - 1).award;
      h.(balls := h.balls[n..], catches := h.catches + [p],
         stardust := h.stardust + Sum(a.stardust), candy := h.candy + Sum(a.candy), xp := h.xp + Sum(a.xp))
    else h.(balls := h.balls[n..])
  }

  /**
   * The encounters of cell c, in order. The distance guard of the source
   * compares against infinity and so admits every encounter.
   */
  function Encounters(h: Haul, wild: seq<WildPokemon>, c: nat, srv: PoiServer): Haul {
    if wild == [] then h
    else
      var k := |wild| - 1;
      var before := Encounters(h, wild[..k], c, srv);
      if srv.encounter(c)(k) == 1 then Throw(before, wild[k], srv.catchReply(c)(k)) else before
  }

  /** Searching one fort: only an eligible stop is searched, and only result 1 records it. */
  function SearchFort(h: Haul, f: Fort, lat: real, lng: real, reply: FortSearchReply): Haul {
    if SpinEligible(f, lat, lng) && reply.result == 1 then
      h.(xp := h.xp + (if reply.experienceAwarded.Some? then reply.experienceAwarded.value else 0),
         spins := h.spins + [f])
    else h
  }

  /** The forts of cell c, in order. */
  function SearchForts(h: Haul, forts: seq<Fort>, c: nat, lat: real, lng: real, srv: PoiServer): Haul {
    if forts == [] then h
    else
      var k := |forts| - 1;
      SearchFort(SearchForts(h, forts[..k], c, lat, lng, srv), forts[k], lat, lng, srv.fortSearch(c)(k))
  }

  /** One map cell: its encounters first, then its forts. */
  function VisitCell(h: Haul, cell: MapCell, c: nat, lat: real, lng: real, srv: PoiServer): Haul {
    var afterWild := if cell.wildPokemons.Some? then Encounters(h, cell.wildPokemons.value, c, srv) else h;
    if cell.forts.Some? then SearchForts(afterWild, cell.forts.value, c, lat, lng, srv) else afterWild
  }

  function VisitCells(h: Haul, cells: seq<MapCell>, lat: real, lng: real, srv: PoiServer): Haul {
    if cells == [] then h
    else
      var c := |cells| - 1;
      VisitCell(VisitCells(h, cells[..c], lat, lng, srv), cells[c], c, lat, lng, srv)
  }

  /** `find_poi`: nothing happens unless the scan answered status 1. */
  function FindPoiSpec(lat: real, lng: real, balls: seq<int>, scan: MapScan, srv: PoiServer): Haul {
    var start := Haul(balls, [], [], 0, 0, 0);
    if scan.status == Some(1) then VisitCells(start, scan.mapCells, lat, lng, srv) else start
  }

  // ---------------------------------------------------------------------
  // What find_poi promises
  // ---------------------------------------------------------------------

  /**
   * `h` is reachable from `h0`: the balls left are a suffix of the balls
   * held, every new catch used up at least one ball, catches and spins
   * only grow, and every new spin is an eligible stop.
   */
  predicate Advances(h0: Haul, h: Haul, lat: real, lng: real) {
    && |h.balls| <= |h0.balls|
    && h.balls == h0.balls[|h0.balls| - |h.balls|..]
    && |h0.catches| <= |h.catches|
    && h.catches[..|h0.catches|] == h0.catches
    && |h.catches| - |h0.catches| <= |h0.balls| - |h.balls|
    && |h0.spins| <= |h.spins|
    && h.spins[..|h0.spins|] == h0.spins
    && forall i :: |h0.spins| <= i < |h.spins| ==> SpinEligible(h.spins[i], lat, lng)
  }

  lemma AdvancesTransitive(h0: Haul, h1: Haul, h2: Haul, lat: real, lng: real)
    requires Advances(h0, h1, lat, lng) && Advances(h1, h2, lat, lng)
    ensures Advances(h0, h2, lat, lng)
  {
    assert h2.catches[..|h0.catches|] == h2.catches[..|h1.catches|][..|h0.catches|];
    assert h2.spins[..|h0.spins|] == h2.spins[..|h1.spins|][..|h0.spins|];
    forall i | |h0.spins| <= i < |h2.spins|
      ensures SpinEligible(h2.spins[i], lat, lng)
    {
      if i < |h1.spins| {
        assert h2.spins[i] == h2.spins[..|h1.spins|][i];
      }
    }
  }

  /**
   * A throw run catches at most one pokemon, the one encountered, and only
   * by using a ball; it catches it exactly when the run ends on status 1.
   */
  lemma ThrowAdvances(h: Haul, p: WildPokemon, reply: nat -> CatchReply, lat: real, lng: real)
    ensures Advances(h, Throw(h, p, reply), lat, lng)
    ensures var r := Throw(h, p, reply);
      r.catches == h.catches || r.catches == h.catches + [p]
    ensures Throw(h, p, reply).catches == h.catches + [p] <==> CaughtFrom(StopThrowing, |h.balls|, reply, 0)
  {
    var n := ThrowsFrom(StopThrowing, |h.balls|, reply, 0);
    var r := Throw(h, p, reply);
    assert r.catches[..|h.catches|] == h.catches;
    assert |r.balls| == |h.balls| - n;
  }

  lemma SearchFortAdvances(h: Haul, f: Fort, lat: real, lng: real, reply: FortSearchReply)
    ensures Advances(h, SearchFort(h, f, lat, lng, reply), lat, lng)
  {
    var r := SearchFort(h, f, lat, lng, reply);
    assert r.spins[..|h.spins|] == h.spins;
    assert h.balls[|h.balls| - |h.balls|..] == h.balls;
    assert r.catches[..|h.catches|] == h.catches;
  }

  lemma AdvancesReflexive(h: Haul, lat: real, lng: real)
    ensures Advances(h, h, lat, lng)
  {
    assert h.balls[|h.balls| - |h.balls|..] == h.balls;
    assert h.catches[..|h.catches|] == h.catches;
    assert h.spins[..|h.spins|] == h.spins;
  }

  lemma {:induction false} EncountersAdvance(h: Haul, wild: seq<WildPokemon>, c: nat, srv: PoiServer, lat: real, lng: real)
    ensures Advances(h, Encounters(h, wild, c, srv), lat, lng)
  {
    if wild == [] {
      AdvancesReflexive(h, lat, lng);
    } else {
      var k := |wild| - 1;
      var before := Encounters(h, wild[..k], c, srv);
      EncountersAdvance(h, wild[..k], c, srv, lat, lng);
      if srv.encounter(c)(k) == 1 {
        ThrowAdvances(before, wild[k], srv.catchReply(c)(k), lat, lng);
        AdvancesTransitive(h, before, Encounters(h, wild, c, srv), lat, lng);
      }
    }
  }

  lemma {:induction false} SearchFortsAdvance(h: Haul, forts: seq<Fort>, c: nat, lat: real, lng: real, srv: PoiServer)
    ensures Advances(h, SearchForts(h, forts, c, lat, lng, srv), lat, lng)
  {
    if forts == [] {
      AdvancesReflexive(h, lat, lng);
    } else {
      var k := |forts| - 1;
      var before := SearchForts(h, forts[..k], c, lat, lng, srv);
      SearchFortsAdvance(h, forts[..k], c, lat, lng, srv);
      SearchFortAdvances(before, forts[k], lat, lng, srv.fortSearch(c)(k));
      AdvancesTransitive(h, before, SearchForts(h, forts, c, lat, lng, srv), lat, lng);
    }
  }

  lemma VisitCellAdvances(h: Haul, cell: MapCell, c: nat, lat: real, lng: real, srv: PoiServer)
    ensures Advances(h, VisitCell(h, cell, c, lat, lng, srv), lat, lng)
  {
    var afterWild := if cell.wildPokemons.Some? then Encounters(h, cell.wildPokemons.value, c, srv) else h;
    if cell.wildPokemons.Some? {
      EncountersAdvance(h, cell.wildPokemons.value, c, srv, lat, lng);
    } else {
      AdvancesReflexive(h, lat, lng);
    }
    if cell.forts.Some? {
      SearchFortsAdvance(afterWild, cell.forts.value, c, lat, lng, srv);
      AdvancesTransitive(h, afterWild, VisitCell(h, cell, c, lat, lng, srv), lat, lng);
    }
  }

  lemma {:induction false} VisitCellsAdvance(h: Haul, cells: seq<MapCell>, lat: real, lng: real, srv: PoiServer)
    ensures Advances(h, VisitCells(h, cells, lat, lng, srv), lat, lng)
  {
    if cells == [] {
      AdvancesReflexive(h, lat, lng);
    } else {
      var c := |cells| - 1;
      var before := VisitCells(h, cells[..c], lat, lng, srv);
      VisitCellsAdvance(h, cells[..c], lat, lng, srv);
      VisitCellAdvances(before, cells[c], c, lat, lng, srv);
      AdvancesTransitive(h, before, VisitCells(h, cells, lat, lng, srv), lat, lng);
    }
  }

  /**
   * One `find_poi` call throws balls from the front of the list it was
   * given, so with a sorted list the balls thrown are the lowest ids; it
   * catches no more pokemon than balls it threw; and it records only
   * spins of eligible stops.
   */
  lemma FindPoiAccounting(lat: real, lng: real, balls: seq<int>, scan: MapScan, srv: PoiServer)
    ensures var h := FindPoiSpec(lat, lng, balls, scan, srv);
      var used := |balls| - |h.balls|;
      && 0 <= used <= |balls|
      && h.balls == balls[used..]
      && |h.catches| <= used
      && (forall f :: f in h.spins ==> SpinEligible(f, lat, lng))
      && (IsSorted(balls) ==> forall i, j :: 0 <= i < used <= j < |balls| ==> balls[i] <= balls[j])
      && (scan.status != Some(1) ==> h == Haul(balls, [], [], 0, 0, 0))
  {
    var start := Haul(balls, [], [], 0, 0, 0);
    if scan.status == Some(1) {
      VisitCellsAdvance(start, scan.mapCells, lat, lng, srv);
    } else {
      AdvancesReflexive(start, lat, lng);
    }
    var h := FindPoiSpec(lat, lng, balls, scan, srv);
    forall f | f in h.spins
      ensures SpinEligible(f, lat, lng)
    {
      var i :| 0 <= i < |h.spins| && h.spins[i] == f;
    }
  }

  // ---------------------------------------------------------------------
  // The imperative find_poi
  // ---------------------------------------------------------------------

  /**
   * The capture loop at one encounter: pops the front ball for each throw,
   * stops when no ball is left, on a missing status, or on status 0, 1 or
   * 3, and on status 1 appends the encounter and adds the capture awards.
   * `reply(j)` answers the j-th throw.
   */
  method CaptureLoop(h: Haul, pokemon: WildPokemon, reply: nat -> CatchReply) returns (r: Haul)
    ensures r == Throw(h, pokemon, reply)
  {
    var balls, catches, stardust, candy, xp := h.balls, h.catches, h.stardust, h.candy, h.xp;
    var thrown := 0;
    while true
      invariant 0 <= thrown <= |h.balls|
      invariant balls == h.balls[thrown..]
      invariant catches == h.catches && stardust == h.stardust && candy == h.candy && xp == h.xp
      invariant thrown > 0 ==> Verdict(StopThrowing, reply(thrown - 1).status) == Again
      invariant ThrowsFrom(StopThrowing, |h.balls|, reply, 0) == thrown + ThrowsFrom(StopThrowing, |balls|, reply, thrown)
      decreases |balls|
    {
      if |balls| == 0 {
        break;
      }
      balls := balls[1..];
      var ret := reply(thrown);
      thrown := thrown + 1;
      if ret.status.Some? {
        if ret.status.value == 1 {
          stardust := stardust + Sum(ret.award.stardust);
          candy := candy + Sum(ret.award.candy);
          xp := xp + Sum(ret.award.xp);
          catches := catches + [pokemon];
          break;
        } else if ret.status.value == 0 || ret.status.value == 3 {
          break;
        }
      } else {
        break;
      }
    }
    r := Haul(balls, h.spins, catches, stardust, candy, xp);
  }

  lemma EncountersOneMore(h: Haul, wild: seq<WildPokemon>, c: nat, srv: PoiServer, k: nat)
    requires k < |wild|
    ensures Encounters(h, wild[..k + 1], c, srv) ==
      var before := Encounters(h, wild[..k], c, srv);
      if srv.encounter(c)(k) == 1 then Throw(before, wild[k], srv.catchReply(c)(k)) else before
  {
    assert wild[..k + 1][..k] == wild[..k];
  }

  lemma SearchFortsOneMore(h: Haul, forts: seq<Fort>, c: nat, lat: real, lng: real, srv: PoiServer, k: nat)
    requires k < |forts|
    ensures SearchForts(h, forts[..k + 1], c, lat, lng, srv) ==
      SearchFort(SearchForts(h, forts[..k], c, lat, lng, srv), forts[k], lat, lng, srv.fortSearch(c)(k))
  {
    assert forts[..k + 1][..k] == forts[..k];
  }

  lemma VisitCellsOneMore(h: Haul, cells: seq<MapCell>, lat: real, lng: real, srv: PoiServer, c: nat)
    requires c < |cells|
    ensures VisitCells(h, cells[..c + 1], lat, lng, srv) ==
      VisitCell(VisitCells(h, cells[..c], lat, lng, srv), cells[c], c, lat, lng, srv)
  {
    assert cells[..c + 1][..c] == cells[..c];
  }

  /** The encounters of cell c, starting from `h`. */
  method VisitEncounters(h: Haul, wild: seq<WildPokemon>, c: nat, srv: PoiServer) returns (r: Haul)
    ensures r == Encounters(h, wild, c, srv)
  {
    r := h;
    var k := 0;
    while k < |wild|
      invariant 0 <= k <= |wild|
      invariant r == Encounters(h, wild[..k], c, srv)
    {
      var pokemon := wild[k];
      EncountersOneMore(h, wild, c, srv, k);
      var status := srv.encounter(c)(k);
      if status == 1 {
        r := CaptureLoop(r, pokemon, srv.catchReply(c)(k));
      }
      k := k + 1;
    }
    assert wild[..k] == wild;
  }

  /** The forts of cell c, starting from `h`. */
  method VisitForts(h: Haul, forts: seq<Fort>, c: nat, lat: real, lng: real, srv: PoiServer) returns (r: Haul)
    ensures r == SearchForts(h, forts, c, lat, lng, srv)
  {
    r := h;
    var k := 0;
    while k < |forts|
      invariant 0 <= k <= |forts|
      invariant r == SearchForts(h, forts[..k], c, lat, lng, srv)
    {
      var fort := forts[k];
      SearchFortsOneMore(h, forts, c, lat, lng, srv, k);
      if fort.fortType.Some? && fort.fortType.value == 1 && fort.cooldownMs.None? {
        if Square(fort.latitude - lat) + Square(fort.longitude - lng) < Square(SpinRange) {
          var ret := srv.fortSearch(c)(k);
          if ret.result == 1 {
            if ret.experienceAwarded.Some? {
              r := r.(xp := r.xp + ret.experienceAwarded.value);
            }
            r := r.(spins := r.spins + [fort]);
          }
        }
      }
      k := k + 1;
    }
    assert forts[..k] == forts;
  }

  /**
   * Scans the map around (lat, lng) and works through its cells with the
   * given ball list; returns the spins, catches and awards.
   */
  method FindPoi(lat: real, lng: real, balls: seq<int>, scan: MapScan, srv: PoiServer)
    returns (spins: seq<Fort>, catches: seq<WildPokemon>, stardust: int, candy: int, xp: int)
    ensures var h := FindPoiSpec(lat, lng, balls, scan, srv);
      spins == h.spins && catches == h.catches && stardust == h.stardust && candy == h.candy && xp == h.xp
  {
    var start := Haul(balls, [], [], 0, 0, 0);
    var h := start;
    if scan.status.Some? && scan.status.value == 1 {
      var cells := scan.mapCells;
      var c := 0;
      while c < |cells|
        invariant 0 <= c <= |cells|
        invariant h == VisitCells(start, cells[..c], lat, lng, srv)
      {
        var cell := cells[c];
        VisitCellsOneMore(start, cells, lat, lng, srv, c);
        if cell.wildPokemons.Some? {
          h := VisitEncounters(h, cell.wildPokemons.value, c, srv);
        }
        if cell.forts.Some? {
          h := VisitForts(h, cell.forts.value, c, lat, lng, srv);
        }
        c := c + 1;
      }
      assert cells[..c] == cells;
    }
    spins, catches, stardust, candy, xp := h.spins, h.catches, h.stardust, h.candy, h.xp;
  }
}
