/**
 * The decision logic of the `PoGoBot` class (examples/bot/bot.py). Every
 * server call is replaced by an oracle: a function argument giving the
 * server's answer to each call, indexed by the attempt, the fort or the
 * encounter it answers. The player position that `api.get_position()`
 * returns is an argument too.
 */
module Bot {
  import opened Util
  import opened Protocol
  import opened Capture

  /** `self.inventory`: the sorted inventory snapshot. */
  datatype Inventory = Inventory(
    items: map<int, int>,                   // item id -> count
    candies: map<int, int>,                 // family id -> candy
    pokemon: map<int, PokemonData>,         // pokemon id -> data
    eggs: map<int, PokemonData>,            // egg id -> data
    stats: Option<PlayerStats>,             // None while still `{}`
    incubators: map<string, Incubator>)     // incubator id -> incubator

  const EmptyInventory := Inventory(map[], map[], map[], map[], None, map[])

  /** `self.pois`: what the last map scan reported. */
  datatype Pois = Pois(pokemon: seq<WildPokemon>, forts: seq<Fort>)

  /** The `GET_MAP_OBJECTS` response. */
  datatype MapObjects = MapObjects(status: int, mapCells: seq<MapCell>)

  // ---------------------------------------------------------------------
  // Inventory triage (process_inventory)
  // ---------------------------------------------------------------------

  /** The one category an inventory entry is filed under: the first key of the `elif` chain it has. */
  datatype Kind = ItemKind | CandyKind | PokemonKind | IncubatorKind | StatsKind | Unfiled

  function KindOf(d: InventoryItemData): Kind {
    if d.item.Some? then ItemKind
    else if d.candy.Some? then CandyKind
    else if d.pokemonData.Some? then PokemonKind
    else if d.eggIncubators.Some? then IncubatorKind
    else if d.playerStats.Some? then StatsKind
    else Unfiled
  }

  /** Adds each incubator under its id, later ones overwriting earlier ones. */
  function AddIncubators(m: map<string, Incubator>, list: seq<Incubator>): map<string, Incubator> {
    if list == [] then m
    else AddIncubators(m, list[..|list| - 1])[list[|list| - 1].id := list[|list| - 1]]
  }

  /** The effect of one entry on the snapshot. */
  function TriageStep(ni: Inventory, d: InventoryItemData): Inventory {
    match KindOf(d)
    case ItemKind =>
      if d.item.value.count.Some? then ni.(items := ni.items[d.item.value.itemId := d.item.value.count.value])
      else ni
    case CandyKind =>
      if d.candy.value.candy.Some? then ni.(candies := ni.candies[d.candy.value.familyId := d.candy.value.candy.value])
      else ni
    case PokemonKind =>
      var p := d.pokemonData.value;
      if p.isEgg == Some(true) then ni.(eggs := ni.eggs[p.id := p])
      else ni.(pokemon := ni.pokemon[p.id := p])
    case IncubatorKind => ni.(incubators := AddIncubators(ni.incubators, d.eggIncubators.value))
    case StatsKind => ni.(stats := Some(d.playerStats.value))
    case Unfiled => ni
  }

  /** The snapshot built from a list of entries. */
  function Triage(entries: seq<InventoryItemData>): Inventory {
    if entries == [] then EmptyInventory
    else TriageStep(Triage(entries[..|entries| - 1]), entries[|entries| - 1])
  }

  /** One ball id per counted ball stack, in entry order (before sorting). */
  function BallIds(entries: seq<InventoryItemData>): (ids: seq<int>)
    ensures |ids| <= |entries|
  {
    if entries == [] then []
    else
      var d := entries[|entries| - 1];
      BallIds(entries[..|entries| - 1]) +
        if KindOf(d) == ItemKind && d.item.value.count.Some? && IsBallId(d.item.value.itemId)
        then [d.item.value.itemId] else []
  }

  /** Extending the entries by one entry extends the snapshot and the ball list by that entry's step. */
  lemma FoldOneMore(entries: seq<InventoryItemData>, i: nat)
    requires i < |entries|
    ensures Triage(entries[..i + 1]) == TriageStep(Triage(entries[..i]), entries[i])
    ensures BallIds(entries[..i + 1]) == BallIds(entries[..i]) +
      if KindOf(entries[i]) == ItemKind && entries[i].item.value.count.Some? && IsBallId(entries[i].item.value.itemId)
      then [entries[i].item.value.itemId] else []
  {
    assert entries[..i + 1][..i] == entries[..i];
  }

  /**
   * An entry changes only the category it is filed under, and an item stack
   * without a count, or a candy entry without a balance, changes nothing.
   */
  lemma StepTouchesOnlyItsCategory(ni: Inventory, d: InventoryItemData)
    ensures var r := TriageStep(ni, d);
      && (KindOf(d) != ItemKind ==> r.items == ni.items)
      && (KindOf(d) != CandyKind ==> r.candies == ni.candies)
      && (KindOf(d) != PokemonKind ==> r.pokemon == ni.pokemon && r.eggs == ni.eggs)
      && (KindOf(d) == PokemonKind ==> r.pokemon == ni.pokemon || r.eggs == ni.eggs)
      && (KindOf(d) != IncubatorKind ==> r.incubators == ni.incubators)
      && (KindOf(d) != StatsKind ==> r.stats == ni.stats)
      && (KindOf(d) == ItemKind && d.item.value.count.None? ==> r == ni)
      && (KindOf(d) == CandyKind && d.candy.value.candy.None? ==> r == ni)
  {
  }

  /** Entry `d` files an egg under id `k`. */
  predicate IsEggEntry(d: InventoryItemData, k: int) {
    KindOf(d) == PokemonKind && d.pokemonData.value.isEgg == Some(true) && d.pokemonData.value.id == k
  }

  /** Entry `d` files a (non-egg) pokemon under id `k`. */
  predicate IsPokemonEntry(d: InventoryItemData, k: int) {
    KindOf(d) == PokemonKind && d.pokemonData.value.isEgg != Some(true) && d.pokemonData.value.id == k
  }

  /**
   * `eggs` holds id `k` exactly when some entry is an egg with that id, and
   * then holds the data of the last such entry.
   */
  lemma {:induction false} EggsKeepLastEntry(entries: seq<InventoryItemData>, k: int)
    ensures k in Triage(entries).eggs <==> exists i :: 0 <= i < |entries| && IsEggEntry(entries[i], k)
    ensures k in Triage(entries).eggs ==>
      exists i :: 0 <= i < |entries| && IsEggEntry(entries[i], k) &&
        Triage(entries).eggs[k] == entries[i].pokemonData.value &&
        forall j :: i < j < |entries| ==> !IsEggEntry(entries[j], k)
  {
    if entries != [] {
      var front := entries[..|entries| - 1];
      var last := entries[|entries| - 1];
      EggsKeepLastEntry(front, k);
      assert forall i :: 0 <= i < |front| ==> front[i] == entries[i];
      if !IsEggEntry(last, k) {
        assert Triage(entries).eggs == Triage(front).eggs || k != last.pokemonData.value.id;
        if k in Triage(entries).eggs {
          var i :| 0 <= i < |front| && IsEggEntry(front[i], k) &&
            Triage(front).eggs[k] == front[i].pokemonData.value &&
            forall j :: i < j < |front| ==> !IsEggEntry(front[j], k);
          assert IsEggEntry(entries[i], k);
        }
      } else {
        assert IsEggEntry(entries[|entries| - 1], k);
      }
    }
  }

  /**
   * `pokemon` holds id `k` exactly when some entry is a non-egg pokemon with
   * that id, and then holds the data of the last such entry.
   */
  lemma {:induction false} PokemonKeepLastEntry(entries: seq<InventoryItemData>, k: int)
    ensures k in Triage(entries).pokemon <==> exists i :: 0 <= i < |entries| && IsPokemonEntry(entries[i], k)
    ensures k in Triage(entries).pokemon ==>
      exists i :: 0 <= i < |entries| && IsPokemonEntry(entries[i], k) &&
        Triage(entries).pokemon[k] == entries[i].pokemonData.value &&
        forall j :: i < j < |entries| ==> !IsPokemonEntry(entries[j], k)
  {
    if entries != [] {
      var front := entries[..|entries| - 1];
      var last := entries[|entries| - 1];
      PokemonKeepLastEntry(front, k);
      assert forall i :: 0 <= i < |front| ==> front[i] == entries[i];
      if !IsPokemonEntry(last, k) {
        assert Triage(entries).pokemon == Triage(front).pokemon || k != last.pokemonData.value.id;
        if k in Triage(entries).pokemon {
          var i :| 0 <= i < |front| && IsPokemonEntry(front[i], k) &&
            Triage(front).pokemon[k] == front[i].pokemonData.value &&
            forall j :: i < j < |front| ==> !IsPokemonEntry(front[j], k);
          assert IsPokemonEntry(entries[i], k);
        }
      } else {
        assert IsPokemonEntry(entries[|entries| - 1], k);
      }
    }
  }

  /** The entries filed as an item stack of id `b` that carries a count. */
  function Stacks(entries: seq<InventoryItemData>, b: int): nat {
    if entries == [] then 0
    else
      var d := entries[|entries| - 1];
      Stacks(entries[..|entries| - 1], b) +
        if KindOf(d) == ItemKind && d.item.value.count.Some? && d.item.value.itemId == b then 1 else 0
  }

  /**
   * The ball list agrees with the item counts: a ball id is listed exactly
   * when it is one of 1, 2, 3 and the snapshot records a count for it, and
   * it is listed once per counted stack of that id, whatever the count.
   */
  lemma BallsMatchItems(entries: seq<InventoryItemData>)
    ensures forall b :: b in BallIds(entries) <==> IsBallId(b) && b in Triage(entries).items
    ensures forall b :: multiset(BallIds(entries))[b] == if IsBallId(b) then Stacks(entries, b) else 0
    ensures |BallIds(entries)| <= |entries|
  {
    forall b
      ensures b in BallIds(entries) <==> IsBallId(b) && b in Triage(entries).items
      ensures multiset(BallIds(entries))[b] == if IsBallId(b) then Stacks(entries, b) else 0
    {
      BallListedIffCounted(entries, b);
      BallsCountStacks(entries, b);
    }
  }

  /** Ball id b is listed exactly when it is a ball id and the snapshot records a count for it. */
  lemma {:induction false} BallListedIffCounted(entries: seq<InventoryItemData>, b: int)
    ensures b in BallIds(entries) <==> IsBallId(b) && b in Triage(entries).items
  {
    if entries != [] {
      BallListedIffCounted(entries[..|entries| - 1], b);
    }
  }

  /** Ball id b is listed once per counted stack of id b. */
  lemma {:induction false} BallsCountStacks(entries: seq<InventoryItemData>, b: int)
    ensures multiset(BallIds(entries))[b] == if IsBallId(b) then Stacks(entries, b) else 0
  {
    if entries != [] {
      var front := entries[..|entries| - 1];
      BallsCountStacks(front, b);
      var d := entries[|entries| - 1];
      var tail := if KindOf(d) == ItemKind && d.item.value.count.Some? && IsBallId(d.item.value.itemId)
        then [d.item.value.itemId] else [];
      assert multiset(BallIds(front) + tail) == multiset(BallIds(front)) + multiset(tail);
    }
  }

  /** After sorting, every ball is still one of the ball ids 1, 2, 3. */
  lemma SortedBallsAreBalls(entries: seq<InventoryItemData>)
    ensures forall k :: 0 <= k < |Sort(BallIds(entries))| ==> IsBallId(Sort(BallIds(entries))[k])
  {
    var found := BallIds(entries);
    var sorted := Sort(found);
    BallsMatchItems(entries);
    forall k | 0 <= k < |sorted|
      ensures IsBallId(sorted[k])
    {
      assert sorted[k] in multiset(sorted);
      assert sorted[k] in found;
    }
  }

  // ---------------------------------------------------------------------
  // Map scan (get_pois)
  // ---------------------------------------------------------------------

  /** The wild encounters and forts of a list of map cells, in cell order. */
  function CollectPois(cells: seq<MapCell>): Pois {
    if cells == [] then Pois([], [])
    else
      var p := CollectPois(cells[..|cells| - 1]);
      var c := cells[|cells| - 1];
      Pois(p.pokemon + (if c.wildPokemons.Some? then c.wildPokemons.value else []),
           p.forts + (if c.forts.Some? then c.forts.value else []))
  }

  /** Nothing is invented and nothing is dropped: the lists hold exactly what the cells report. */
  lemma {:induction false} PoisFromCells(cells: seq<MapCell>)
    ensures forall w :: w in CollectPois(cells).pokemon <==>
      exists c :: 0 <= c < |cells| && cells[c].wildPokemons.Some? && w in cells[c].wildPokemons.value
    ensures forall f :: f in CollectPois(cells).forts <==>
      exists c :: 0 <= c < |cells| && cells[c].forts.Some? && f in cells[c].forts.value
  {
    if cells != [] {
      var front := cells[..|cells| - 1];
      PoisFromCells(front);
      assert forall c :: 0 <= c < |front| ==> front[c] == cells[c];
    }
  }

  // ---------------------------------------------------------------------
  // Fort spinning (spin_forts)
  // ---------------------------------------------------------------------

  /** Positions of the forts that `fort_search` is called for. */
  function EligibleIndices(forts: seq<Fort>, lat: real, lng: real): seq<nat> {
    if forts == [] then []
    else
      EligibleIndices(forts[..|forts| - 1], lat, lng) +
        if SpinEligible(forts[|forts| - 1], lat, lng) then [|forts| - 1] else []
  }

  /** The forts appended to `spins`: eligible ones whose search answered result 1. */
  function Spun(forts: seq<Fort>, lat: real, lng: real, reply: nat -> Option<int>): seq<Fort> {
    if forts == [] then []
    else
      var i := |forts| - 1;
      Spun(forts[..i], lat, lng, reply) +
        if SpinEligible(forts[i], lat, lng) && reply(i) == Some(1) then [forts[i]] else []
  }

  /** `fort_search` is called for exactly the eligible forts, once each, in order. */
  lemma {:induction false} SearchesExactlyEligible(forts: seq<Fort>, lat: real, lng: real)
    ensures forall i :: i in EligibleIndices(forts, lat, lng) <==> 0 <= i < |forts| && SpinEligible(forts[i], lat, lng)
    ensures forall a, b :: 0 <= a < b < |EligibleIndices(forts, lat, lng)| ==>
      EligibleIndices(forts, lat, lng)[a] < EligibleIndices(forts, lat, lng)[b]
  {
    forall i
      ensures i in EligibleIndices(forts, lat, lng) <==> 0 <= i < |forts| && SpinEligible(forts[i], lat, lng)
    {
      EligibleIndexIffEligible(forts, lat, lng, i);
    }
    if forts != [] {
      var front := forts[..|forts| - 1];
      SearchesExactlyEligible(front, lat, lng);
      var prev := EligibleIndices(front, lat, lng);
      forall a | 0 <= a < |prev|
        ensures prev[a] < |front|
      {
        EligibleIndexIffEligible(front, lat, lng, prev[a]);
      }
    }
  }

  /** Position i is listed exactly when the fort there is eligible. */
  lemma {:induction false} EligibleIndexIffEligible(forts: seq<Fort>, lat: real, lng: real, i: int)
    ensures i in EligibleIndices(forts, lat, lng) <==> 0 <= i < |forts| && SpinEligible(forts[i], lat, lng)
  {
    if forts != [] {
      var front := forts[..|forts| - 1];
      EligibleIndexIffEligible(front, lat, lng, i);
      if 0 <= i < |front| {
        assert front[i] == forts[i];
      }
    }
  }

  /** A fort is recorded as spun only if it was eligible and its search answered result 1. */
  lemma {:induction false} SpunOnlyOnSuccess(forts: seq<Fort>, lat: real, lng: real, reply: nat -> Option<int>)
    ensures forall f :: f in Spun(forts, lat, lng, reply) <==>
      exists i :: 0 <= i < |forts| && forts[i] == f && SpinEligible(f, lat, lng) && reply(i) == Some(1)
    ensures |Spun(forts, lat, lng, reply)| <= |EligibleIndices(forts, lat, lng)|
  {
    if forts != [] {
      var front := forts[..|forts| - 1];
      SpunOnlyOnSuccess(front, lat, lng, reply);
      assert forall i :: 0 <= i < |front| ==> front[i] == forts[i];
    }
  }

  // ---------------------------------------------------------------------
  // Catching (catch_wild_pokemon)
  // ---------------------------------------------------------------------

  /**
   * The number of balls thrown when the encounters are worked through in
   * order from encounter number `e`, sharing `available` balls;
   * `replies(e)(j)` answers throw j at encounter e.
   */
  function ThrownFrom(available: nat, pokemons: seq<WildPokemon>, replies: nat -> nat -> CatchReply, e: nat): (n: nat)
    requires e <= |pokemons|
    ensures n <= available
    decreases |pokemons| - e
  {
    if e == |pokemons| then 0
    else
      var t := ThrowsFrom(ThrowAgain, available, replies(e), 0);
      t + ThrownFrom(available - t, pokemons, replies, e + 1)
  }

  /** The pokemon caught, in encounter order, in the same run. */
  function CaughtFromEncounters(available: nat, pokemons: seq<WildPokemon>, replies: nat -> nat -> CatchReply, e: nat)
    : (caught: seq<WildPokemon>)
    requires e <= |pokemons|
    ensures |caught| <= |pokemons| - e
    decreases |pokemons| - e
  {
    if e == |pokemons| then []
    else
      var t := ThrowsFrom(ThrowAgain, available, replies(e), 0);
      (if CaughtFrom(ThrowAgain, available, replies(e), 0) then [pokemons[e]] else []) +
        CaughtFromEncounters(available - t, pokemons, replies, e + 1)
  }

  lemma DropDrop<T>(s: seq<T>, a: nat, b: nat)
    requires a + b <= |s|
    ensures s[a..][b..] == s[a + b..]
  {
  }

  /**
   * After the encounters before `e`: `balls` is what is left of `start`,
   * and the balls thrown and the pokemon caught so far together with those
   * of the encounters still to come make up the whole call.
   */
  ghost predicate Progress(start: seq<int>, balls: seq<int>, caught: seq<WildPokemon>,
                           wild: seq<WildPokemon>, replies: nat -> nat -> CatchReply, e: nat)
  {
    && e <= |wild|
    && |balls| <= |start| && balls == start[|start| - |balls|..]
    && ThrownFrom(|start|, wild, replies, 0) == (|start| - |balls|) + ThrownFrom(|balls|, wild, replies, e)
    && CaughtFromEncounters(|start|, wild, replies, 0) == caught + CaughtFromEncounters(|balls|, wild, replies, e)
  }

  lemma ProgressStep(start: seq<int>, before: seq<int>, after: seq<int>, caught: seq<WildPokemon>,
                     wild: seq<WildPokemon>, replies: nat -> nat -> CatchReply, e: nat)
    requires e < |wild| && Progress(start, before, caught, wild, replies, e)
    requires after == before[ThrowsFrom(ThrowAgain, |before|, replies(e), 0)..]
    ensures Progress(start, after,
                     caught + (if CaughtFrom(ThrowAgain, |before|, replies(e), 0) then [wild[e]] else []),
                     wild, replies, e + 1)
  {
    var t := ThrowsFrom(ThrowAgain, |before|, replies(e), 0);
    var head := if CaughtFrom(ThrowAgain, |before|, replies(e), 0) then [wild[e]] else [];
    EncounterStep(|before|, wild, replies, e);
    DropDrop(start, |start| - |before|, t);
    var rest := CaughtFromEncounters(|after|, wild, replies, e + 1);
    assert caught + (head + rest) == (caught + head) + rest;
  }

  /** One encounter's throws and catch, followed by those of the encounters after it. */
  lemma EncounterStep(available: nat, pokemons: seq<WildPokemon>, replies: nat -> nat -> CatchReply, e: nat)
    requires e < |pokemons|
    ensures var t := ThrowsFrom(ThrowAgain, available, replies(e), 0);
      && ThrownFrom(available, pokemons, replies, e) == t + ThrownFrom(available - t, pokemons, replies, e + 1)
      && CaughtFromEncounters(available, pokemons, replies, e)
         == (if CaughtFrom(ThrowAgain, available, replies(e), 0) then [pokemons[e]] else [])
            + CaughtFromEncounters(available - t, pokemons, replies, e + 1)
  {
  }

  /** Every caught pokemon is one of the encounters, each caught at most as often as it is listed. */
  lemma {:induction false} CaughtAreEncountered(available: nat, pokemons: seq<WildPokemon>,
                                               replies: nat -> nat -> CatchReply, e: nat)
    requires e <= |pokemons|
    ensures multiset(CaughtFromEncounters(available, pokemons, replies, e)) <= multiset(pokemons[e..])
    decreases |pokemons| - e
  {
    if e < |pokemons| {
      var t := ThrowsFrom(ThrowAgain, available, replies(e), 0);
      var rest := CaughtFromEncounters(available - t, pokemons, replies, e + 1);
      CaughtAreEncountered(available - t, pokemons, replies, e + 1);
      var head: seq<WildPokemon> := if CaughtFrom(ThrowAgain, available, replies(e), 0) then [pokemons[e]] else [];
      assert CaughtFromEncounters(available, pokemons, replies, e) == head + rest;
      assert pokemons[e..] == [pokemons[e]] + pokemons[e + 1..];
      PrependWithin(head, rest, pokemons[e], pokemons[e + 1..]);
    }
  }

  lemma PrependWithin<T>(head: seq<T>, rest: seq<T>, x: T, tail: seq<T>)
    requires head == [] || head == [x]
    requires multiset(rest) <= multiset(tail)
    ensures multiset(head + rest) <= multiset([x] + tail)
  {
    assert multiset(head + rest) == multiset(head) + multiset(rest);
    assert multiset([x] + tail) == multiset{x} + multiset(tail);
  }

  // ---------------------------------------------------------------------
  // The bot
  // ---------------------------------------------------------------------

  /** The number of login attempts `login(retries)` allows. */
  function MaxAttempts(retries: int): nat {
    if retries < 2 then 1 else retries
  }

  class PoGoBot {
    var balls: seq<int>
    var catches: seq<WildPokemon>
    var spins: seq<Fort>
    var pois: Pois
    var inventory: Inventory

    constructor ()
      ensures balls == [] && catches == [] && spins == []
      ensures pois == Pois([], []) && inventory == EmptyInventory
    {
      balls := [];
      catches := [];
      spins := [];
      pois := Pois([], []);
      inventory := EmptyInventory;
    }

    /**
     * Logs in, retrying failures while `retries >= 0` and fewer than
     * `retries` attempts failed. `accepts(j)` is the answer to attempt j.
     * `failed` is the source's `attempts` counter: the failed attempts.
     */
    method Login(retries: int, accepts: nat -> bool) returns (ok: bool, failed: nat)
      ensures ok <==> exists j :: 0 <= j < MaxAttempts(retries) && accepts(j)
      ensures forall j :: 0 <= j < failed ==> !accepts(j)
      ensures ok ==> failed < MaxAttempts(retries) && accepts(failed)
      ensures !ok ==> failed == MaxAttempts(retries)
    {
      ok := false;
      failed := 0;
      while true
        invariant failed < MaxAttempts(retries)
        invariant forall j :: 0 <= j < failed ==> !accepts(j)
        decreases MaxAttempts(retries) - failed
      {
        if !accepts(failed) {
          failed := failed + 1;
          if retries >= 0 && failed < retries {
            // sleep one second and try again
          } else {
            break;
          }
        } else {
          ok := true;
          break;
        }
      }
    }

    /** Files the inventory entries by kind and rebuilds the sorted ball list. */
    method ProcessInventory(entries: seq<InventoryItemData>)
      modifies this`balls, this`inventory
      ensures inventory == Triage(entries)
      ensures balls == Sort(BallIds(entries))
      ensures IsSorted(balls) && forall k :: 0 <= k < |balls| ==> IsBallId(balls[k])
    {
      var ni := EmptyInventory;
      var found: seq<int> := [];
      var i := 0;
      while i < |entries|
        invariant 0 <= i <= |entries|
        invariant ni == Triage(entries[..i])
        invariant found == BallIds(entries[..i])
      {
        var d := entries[i];
        ghost var before, foundBefore := ni, found;
        if d.item.Some? {
          var stack := d.item.value;
          if stack.count.Some? {
            if stack.itemId in [1, 2, 3] {
              found := found + [stack.itemId];
            }
            ni := ni.(items := ni.items[stack.itemId := stack.count.value]);
          }
        } else if d.candy.Some? {
          if d.candy.value.candy.Some? {
            ni := ni.(candies := ni.candies[d.candy.value.familyId := d.candy.value.candy.value]);
          }
        } else if d.pokemonData.Some? {
          var p := d.pokemonData.value;
          if p.isEgg.Some? && p.isEgg.value {
            ni := ni.(eggs := ni.eggs[p.id := p]);
          } else {
            ni := ni.(pokemon := ni.pokemon[p.id := p]);
          }
        } else if d.eggIncubators.Some? {
          var list := d.eggIncubators.value;
          var incubators := ni.incubators;
          var j := 0;
          while j < |list|
            invariant 0 <= j <= |list|
            invariant incubators == AddIncubators(ni.incubators, list[..j])
          {
            assert list[..j + 1][..j] == list[..j];
            incubators := incubators[list[j].id := list[j]];
            j := j + 1;
          }
          assert list[..j] == list;
          ni := ni.(incubators := incubators);
        } else if d.playerStats.Some? {
          ni := ni.(stats := Some(d.playerStats.value));
        }
        assert ni == TriageStep(before, d);
        FoldOneMore(entries, i);
        i := i + 1;
      }
      assert entries[..i] == entries;
      balls := Sort(found);
      inventory := ni;
      SortedBallsAreBalls(entries);
    }

    /** Scans the map: keeps the cells' encounters and forts when the scan answered status 1. */
    method GetPois(reply: Option<MapObjects>) returns (ret: Option<MapObjects>)
      modifies this`pois
      ensures ret == if reply.Some? && reply.value.status == 1 then reply else None
      ensures pois == if ret.Some? then CollectPois(ret.value.mapCells) else Pois([], [])
    {
      var found := Pois([], []);
      ret := reply;
      if reply.Some? && reply.value.status == 1 {
        var cells := reply.value.mapCells;
        var i := 0;
        while i < |cells|
          invariant 0 <= i <= |cells|
          invariant found == CollectPois(cells[..i])
        {
          var cell := cells[i];
          if cell.wildPokemons.Some? {
            found := found.(pokemon := found.pokemon + cell.wildPokemons.value);
          }
          if cell.forts.Some? {
            found := found.(forts := found.forts + cell.forts.value);
          }
          assert cells[..i + 1][..i] == cells[..i];
          i := i + 1;
        }
        assert cells[..i] == cells;
      } else {
        ret := None;
      }
      pois := found;
    }

    /**
     * Searches every eligible fort of the last scan from (lat, lng).
     * `reply(i)` is the `FORT_SEARCH` result for fort i (None when the
     * response is empty or lacks it); `searched` lists the forts searched.
     */
    method SpinForts(lat: real, lng: real, reply: nat -> Option<int>) returns (searched: seq<nat>)
      modifies this`spins
      ensures searched == EligibleIndices(pois.forts, lat, lng)
      ensures spins == old(spins) + Spun(pois.forts, lat, lng, reply)
    {
      var forts := pois.forts;
      searched := [];
      var i := 0;
      while i < |forts|
        invariant 0 <= i <= |forts|
        invariant searched == EligibleIndices(forts[..i], lat, lng)
        invariant spins == old(spins) + Spun(forts[..i], lat, lng, reply)
      {
        var fort := forts[i];
        if fort.fortType.Some? && fort.fortType.value == 1 && fort.cooldownMs.None? {
          if Square(fort.latitude - lat) + Square(fort.longitude - lng) < Square(SpinRange) {
            searched := searched + [i];
            var result := reply(i);
            if result.Some? && result.value == 1 {
              spins := spins + [fort];
            }
          }
        }
        assert forts[..i + 1][..i] == forts[..i];
        i := i + 1;
      }
      assert forts[..i] == forts;
    }

    /**
     * Throws the shared balls, front first, at one encounter until a
     * terminal answer or until no ball is left. `reply(j)` answers throw j.
     * Returns the terminal answer, or None when the balls ran out.
     */
    method CatchPokemon(pokemon: WildPokemon, reply: nat -> CatchReply) returns (ret: Option<CatchReply>)
      modifies this`balls, this`catches
      ensures var n := ThrowsFrom(ThrowAgain, |old(balls)|, reply, 0);
        && balls == old(balls)[n..]
        && catches == old(catches) + (if CaughtFrom(ThrowAgain, |old(balls)|, reply, 0) then [pokemon] else [])
        && ret == if n > 0 && Verdict(ThrowAgain, reply(n - 1).status) != Again then Some(reply(n - 1)) else None
    {
      ghost var start := balls;
      var thrown := 0;
      while true
        invariant 0 <= thrown <= |start|
        invariant balls == start[thrown..]
        invariant catches == old(catches)
        invariant thrown > 0 ==> Verdict(ThrowAgain, reply(thrown - 1).status) == Again
        invariant ThrowsFrom(ThrowAgain, |start|, reply, 0) == thrown + ThrowsFrom(ThrowAgain, |balls|, reply, thrown)
        decreases |balls|
      {
        if |balls| == 0 {
          ret := None;
          break;
        }
        balls := balls[1..];     // the ball thrown is start[thrown]
        var answer := reply(thrown);
        thrown := thrown + 1;
        if answer.status.Some? {
          if answer.status.value == 1 {
            catches := catches + [pokemon];
            ret := Some(answer);
            break;
          } else if answer.status.value == 0 || answer.status.value == 3 {
            ret := Some(answer);
            break;
          }
        }
      }
    }

    /**
     * Works through the encounters of the last scan in order, all drawing
     * on the same ball list, so one call throws at most the balls held at
     * its start. `replies(e)(j)` answers throw j at encounter e.
     */
    method CatchWildPokemon(replies: nat -> nat -> CatchReply)
      modifies this`balls, this`catches
      ensures balls == old(balls)[ThrownFrom(|old(balls)|, pois.pokemon, replies, 0)..]
      ensures catches == old(catches) + CaughtFromEncounters(|old(balls)|, pois.pokemon, replies, 0)
    {
      var wild := pois.pokemon;
      ghost var start := balls;
      ghost var caught: seq<WildPokemon> := [];
      var e := 0;
      while e < |wild|
        invariant 0 <= e <= |wild| && wild == pois.pokemon
        invariant Progress(start, balls, caught, wild, replies, e)
        invariant catches == old(catches) + caught
      {
        ghost var before := balls;
        var answer := CatchPokemon(wild[e], replies(e));
        ghost var head := if CaughtFrom(ThrowAgain, |before|, replies(e), 0) then [wild[e]] else [];
        ProgressStep(start, before, balls, caught, wild, replies, e);
        caught := caught + head;
        e := e + 1;
      }
    }
  }
}
