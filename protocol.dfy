/**
 * The decoded shapes of the game server's responses that the two example
 * scripts read. A field is an `Option` exactly where a script tests the key
 * with `in` before using it; a key the scripts index without testing is a
 * plain field (its absence would raise KeyError, which is not modelled).
 * Integer identifiers used as dictionary keys through `str(id)` are kept as
 * integers: `str` is injective on integers, so the keying is the same.
 */
module Protocol {
  import opened Util

  /** A wild encounter reported in a map cell. */
  datatype WildPokemon = WildPokemon(
    encounterId: int,
    spawnPointId: string,
    latitude: real,
    longitude: real,
    pokemonId: int)       // `pokemon_data.pokemon_id`, the species number

  /** A fort (stop or gym) reported in a map cell. */
  datatype Fort = Fort(
    id: string,
    fortType: Option<int>,          // `type`: 1 is a stop
    cooldownMs: Option<int>,        // `cooldown_complete_timestamp_ms`
    latitude: real,
    longitude: real)

  /** One element of `map_cells`: both lists may be absent. */
  datatype MapCell = MapCell(wildPokemons: Option<seq<WildPokemon>>, forts: Option<seq<Fort>>)

  /** `inventory_item_data.item`: an item stack. */
  datatype ItemStack = ItemStack(itemId: int, count: Option<int>)

  /** `inventory_item_data.candy`: a family's candy balance. */
  datatype CandyStack = CandyStack(familyId: int, candy: Option<int>)

  /** `inventory_item_data.pokemon_data`: a held pokemon or an egg. */
  datatype PokemonData = PokemonData(
    id: int,
    isEgg: Option<bool>,
    attack: Option<int>,            // `individual_attack`
    defense: Option<int>,           // `individual_defense`
    stamina: Option<int>)           // `individual_stamina`

  /** One element of `egg_incubators.egg_incubator`. */
  datatype Incubator = Incubator(
    id: string,
    pokemonId: Option<int>,         // the egg it holds, if any
    targetKm: Option<real>)         // `target_km_walked`

  /** `inventory_item_data.player_stats`. */
  datatype PlayerStats = PlayerStats(level: int, kmWalked: real)

  /**
   * One `inventory_item_data` dictionary. The server sends one kind per
   * entry, but nothing in the scripts relies on that, so every key is
   * independently present or absent.
   */
  datatype InventoryItemData = InventoryItemData(
    item: Option<ItemStack>,
    candy: Option<CandyStack>,
    pokemonData: Option<PokemonData>,
    eggIncubators: Option<seq<Incubator>>,
    playerStats: Option<PlayerStats>)

  /** Award lists of a successful catch (`capture_award`). */
  datatype Award = Award(stardust: seq<int>, candy: seq<int>, xp: seq<int>)

  /** The `CATCH_POKEMON` response to one throw. */
  datatype CatchReply = CatchReply(status: Option<int>, award: Award)

  /** Item ids 1, 2 and 3 are the three ball kinds. */
  predicate IsBallId(id: int) { id == 1 || id == 2 || id == 3 }

  function Square(x: real): real { x * x }

  /** The spin radius, in degrees, used by both scripts. */
  const SpinRange: real := 0.0004495

  /**
   * `math.hypot(dlat, dlng) < 0.0004495`, stated without a square root:
   * for a positive bound, hypot(a, b) < c exactly when a*a + b*b < c*c.
   */
  predicate InSpinRange(f: Fort, lat: real, lng: real) {
    Square(f.latitude - lat) + Square(f.longitude - lng) < Square(SpinRange)
  }

  /** A fort is spun only if it is a stop, not cooling down, and within range. */
  predicate SpinEligible(f: Fort, lat: real, lng: real) {
    f.fortType == Some(1) && f.cooldownMs.None? && InSpinRange(f, lat, lng)
  }
}
