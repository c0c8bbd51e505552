/**
 * The inventory section of the random-walk loop (examples/random-walk.py):
 * one pass over the inventory entries that counts pokemon and items,
 * releases weak pokemon, recycles potions and revives, collects balls,
 * eggs and incubators; then the hatch check and the loading of empty
 * incubators. Server calls are oracles indexed by the entry (release and
 * recycle) or by the call's position (incubator loading).
 */
module WalkInventory {
  import opened Util
  import opened Protocol

  /** The `RELEASE_POKEMON` response. */
  datatype ReleaseReply = ReleaseReply(result: Option<int>, candyAwarded: int)

  /**
   * What the scan needs besides the entries: the `powerquotient` setting,
   * the scaling of an IV sum into a power quotient (a float computation,
   * kept abstract), and the server's answers for entry i.
   */
  datatype ScanContext = ScanContext(
    powerQuotient: int,
    scale: int -> int,
    release: nat -> ReleaseReply,
    recycle: nat -> int)

  /**
   * The variables one pass updates. `releases`, `recycled` and `candy` run
   * across the whole session, `stats` keeps its last value, the others
   * start afresh on every pass.
   */
  datatype Tally = Tally(
    mons: int,
    inventory: int,
    releases: int,
    recycled: int,
    candy: int,
    balls: seq<int>,
    eggs: seq<PokemonData>,
    incubators: seq<Incubator>,
    targetKm: seq<real>,
    walked: real,
    stats: Option<PlayerStats>)

  /** The tally at the top of a pass. */
  function FreshTally(releases: int, recycled: int, candy: int, stats: Option<PlayerStats>): Tally {
    Tally(0, 0, releases, recycled, candy, [], [], [], [], 0.0, stats)
  }

  function OrZero(o: Option<int>): int { if o.Some? then o.value else 0 }

  /** An item stack's `count`, or 1 when it has none. */
  function Units(s: ItemStack): int { if s.count.Some? then s.count.value else 1 }

  /** The sum of the three IVs, a missing IV counting as 0. */
  function IvSum(p: PokemonData): int { OrZero(p.attack) + OrZero(p.defense) + OrZero(p.stamina) }

  /** Items 101, 201 and 701 are recycled whole. */
  predicate IsRecyclable(id: int) { id == 101 || id == 201 || id == 701 }

  /** Python's `[x] * n`: n copies of x, none when n is not positive. */
  function Repeat(x: int, n: int): (r: seq<int>)
    ensures |r| == if n <= 0 then 0 else n
    ensures forall k :: 0 <= k < |r| ==> r[k] == x
    decreases n
  {
    if n <= 0 then [] else Repeat(x, n - 1) + [x]
  }

  // ---------------------------------------------------------------------
  // One entry
  // ---------------------------------------------------------------------

  /** A held pokemon or egg: eggs are kept, weak pokemon released, the rest counted. */
  function PokemonPart(t: Tally, p: PokemonData, i: nat, ctx: ScanContext): Tally {
    if p.isEgg.Some? then t.(eggs := t.eggs + [p], mons := t.mons + 1)
    else if ctx.scale(IvSum(p)) < ctx.powerQuotient then
      var r := ctx.release(i);
      if r.result == Some(1) then t.(candy := t.candy + r.candyAwarded, releases := t.releases + 1)
      else t.(mons := t.mons + 1)
    else t.(mons := t.mons + 1)
  }

  /** An item stack: balls are listed, every stack counted, potions and revives recycled. */
  function ItemPart(t: Tally, s: ItemStack, i: nat, ctx: ScanContext): Tally {
    var withBalls := if IsBallId(s.itemId) then t.(balls := t.balls + Repeat(s.itemId, Units(s))) else t;
    var counted := withBalls.(inventory := withBalls.inventory + Units(s));
    if IsRecyclable(s.itemId) && ctx.recycle(i) == 1 then
      counted.(recycled := counted.recycled + Units(s), inventory := counted.inventory - Units(s))
    else counted
  }

  /** Appends incubators, and the target of each incubator that has one. */
  function AddIncubators(t: Tally, list: seq<Incubator>): Tally {
    if list == [] then t
    else
      var before := AddIncubators(t, list[..|list| - 1]);
      var ib := list[|list| - 1];
      before.(incubators := before.incubators + [ib],
              targetKm := before.targetKm + if ib.targetKm.Some? then [ib.targetKm.value] else [])
  }

  /** Incubators, or else player stats. */
  function IncubatorPart(t: Tally, d: InventoryItemData): Tally {
    if d.eggIncubators.Some? then AddIncubators(t, d.eggIncubators.value)
    else if d.playerStats.Some? then t.(stats := d.playerStats, walked := d.playerStats.value.kmWalked)
    else t
  }

  /** The tally after the pokemon and item parts of entry i, before its incubator part. */
  function BeforeIncubators(t: Tally, d: InventoryItemData, i: nat, ctx: ScanContext): Tally {
    var t1 := if d.pokemonData.Some? then PokemonPart(t, d.pokemonData.value, i, ctx) else t;
    if d.item.Some? then ItemPart(t1, d.item.value, i, ctx) else t1
  }

  /** The effect of entry number i. The three parts are independent `if`s, not an `elif` chain. */
  function ScanStep(t: Tally, d: InventoryItemData, i: nat, ctx: ScanContext): Tally {
    IncubatorPart(BeforeIncubators(t, d, i, ctx), d)
  }

  /** The tally after a pass over `entries` that started from `t0`. */
  function Scan(entries: seq<InventoryItemData>, t0: Tally, ctx: ScanContext): Tally {
    if entries == [] then t0
    else ScanStep(Scan(entries[..|entries| - 1], t0, ctx), entries[|entries| - 1], |entries| - 1, ctx)
  }

  // ---------------------------------------------------------------------
  // Counts over the entries, independent of the scan
  // ---------------------------------------------------------------------

  /** Entries carrying pokemon data (eggs included). */
  function PokemonEntries(entries: seq<InventoryItemData>): nat {
    if entries == [] then 0
    else PokemonEntries(entries[..|entries| - 1]) + if entries[|entries| - 1].pokemonData.Some? then 1 else 0
  }

  /** Entries carrying an egg. */
  function EggEntries(entries: seq<InventoryItemData>): nat {
    if entries == [] then 0
    else
      var d := entries[|entries| - 1];
      EggEntries(entries[..|entries| - 1]) + if d.pokemonData.Some? && d.pokemonData.value.isEgg.Some? then 1 else 0
  }

  /** Entries carrying a non-egg pokemon whose power quotient is below the setting. */
  function WeakEntries(entries: seq<InventoryItemData>, ctx: ScanContext): nat {
    if entries == [] then 0
    else
      var d := entries[|entries| - 1];
      WeakEntries(entries[..|entries| - 1], ctx) +
        if d.pokemonData.Some? && d.pokemonData.value.isEgg.None? &&
           ctx.scale(IvSum(d.pokemonData.value)) < ctx.powerQuotient then 1 else 0
  }

  /** The units of all item stacks: each stack's count, or 1. */
  function ItemUnits(entries: seq<InventoryItemData>): int {
    if entries == [] then 0
    else
      var d := entries[|entries| - 1];
      ItemUnits(entries[..|entries| - 1]) + if d.item.Some? then Units(d.item.value) else 0
  }

  /** The copies of ball id b the stacks hold: a non-positive count holds none. */
  function BallUnits(entries: seq<InventoryItemData>, b: int): nat {
    if entries == [] then 0
    else
      var d := entries[|entries| - 1];
      BallUnits(entries[..|entries| - 1], b) +
        if d.item.Some? && d.item.value.itemId == b && Units(d.item.value) > 0 then Units(d.item.value) as nat else 0
  }

  /** No stack of the entries is a potion or revive that is recycled. */
  predicate NoRecyclables(entries: seq<InventoryItemData>) {
    forall i :: 0 <= i < |entries| && entries[i].item.Some? ==> !IsRecyclable(entries[i].item.value.itemId)
  }

  /** Entry number i is a weak non-egg pokemon whose `RELEASE_POKEMON` answered result 1. */
  predicate IsReleased(d: InventoryItemData, i: nat, ctx: ScanContext) {
    && d.pokemonData.Some? && d.pokemonData.value.isEgg.None?
    && ctx.scale(IvSum(d.pokemonData.value)) < ctx.powerQuotient
    && ctx.release(i).result == Some(1)
  }

  /** The entries released. */
  function Released(entries: seq<InventoryItemData>, ctx: ScanContext): nat {
    if entries == [] then 0
    else Released(entries[..|entries| - 1], ctx) + if IsReleased(entries[|entries| - 1], |entries| - 1, ctx) then 1 else 0
  }

  /** The candy the releases awarded. */
  function ReleaseCandy(entries: seq<InventoryItemData>, ctx: ScanContext): int {
    if entries == [] then 0
    else
      var i := |entries| - 1;
      ReleaseCandy(entries[..i], ctx) + if IsReleased(entries[i], i, ctx) then ctx.release(i).candyAwarded else 0
  }

  /** The eggs among the entries, in order. */
  function EggsOf(entries: seq<InventoryItemData>): seq<PokemonData> {
    if entries == [] then []
    else
      var d := entries[|entries| - 1];
      EggsOf(entries[..|entries| - 1]) + if d.pokemonData.Some? && d.pokemonData.value.isEgg.Some? then [d.pokemonData.value] else []
  }

  /** The units recycled: whole potion and revive stacks whose `RECYCLE_INVENTORY_ITEM` answered result 1. */
  function Recycled(entries: seq<InventoryItemData>, ctx: ScanContext): int {
    if entries == [] then 0
    else
      var i := |entries| - 1;
      var d := entries[i];
      Recycled(entries[..i], ctx) +
        if d.item.Some? && IsRecyclable(d.item.value.itemId) && ctx.recycle(i) == 1 then Units(d.item.value) else 0
  }

  /** The targets of a list of incubators, in order, skipping those without one. */
  function Targets(list: seq<Incubator>): seq<real> {
    if list == [] then []
    else
      var ib := list[|list| - 1];
      Targets(list[..|list| - 1]) + if ib.targetKm.Some? then [ib.targetKm.value] else []
  }

  // ---------------------------------------------------------------------
  // What a pass promises
  // ---------------------------------------------------------------------

  lemma ScanOneMore(entries: seq<InventoryItemData>, t0: Tally, ctx: ScanContext, i: nat)
    requires i < |entries|
    ensures Scan(entries[..i + 1], t0, ctx) == ScanStep(Scan(entries[..i], t0, ctx), entries[i], i, ctx)
  {
    assert entries[..i + 1][..i] == entries[..i];
  }

  lemma AddIncubatorsKeepsCounters(t: Tally, list: seq<Incubator>)
    ensures var r := AddIncubators(t, list);
      r == t.(incubators := r.incubators, targetKm := r.targetKm)
  {
    if list != [] {
      AddIncubatorsKeepsCounters(t, list[..|list| - 1]);
    }
  }

  /** The incubator part leaves the pokemon and item counters alone. */
  lemma IncubatorPartKeepsCounters(t: Tally, d: InventoryItemData)
    ensures var r := IncubatorPart(t, d);
      r == t.(incubators := r.incubators, targetKm := r.targetKm, stats := r.stats, walked := r.walked)
  {
    if d.eggIncubators.Some? {
      AddIncubatorsKeepsCounters(t, d.eggIncubators.value);
    }
  }

  /** One entry's effect on the pokemon counters. */
  lemma StepCountsPokemon(t: Tally, d: InventoryItemData, i: nat, ctx: ScanContext)
    ensures var r := ScanStep(t, d, i, ctx);
      && r.mons + r.releases == t.mons + t.releases + (if d.pokemonData.Some? then 1 else 0)
      && t.releases <= r.releases
      && r.releases <= t.releases + (if d.pokemonData.Some? && d.pokemonData.value.isEgg.None? &&
                                         ctx.scale(IvSum(d.pokemonData.value)) < ctx.powerQuotient then 1 else 0)
      && r.eggs == t.eggs + (if d.pokemonData.Some? && d.pokemonData.value.isEgg.Some? then [d.pokemonData.value] else [])
      && r.releases == t.releases + (if IsReleased(d, i, ctx) then 1 else 0)
      && r.candy == t.candy + (if IsReleased(d, i, ctx) then ctx.release(i).candyAwarded else 0)
  {
    IncubatorPartKeepsCounters(BeforeIncubators(t, d, i, ctx), d);
  }

  /** One entry's effect on the item counters and the ball list. */
  lemma StepCountsItems(t: Tally, d: InventoryItemData, i: nat, ctx: ScanContext)
    ensures var r := ScanStep(t, d, i, ctx);
      && r.inventory + r.recycled == t.inventory + t.recycled + (if d.item.Some? then Units(d.item.value) else 0)
      && r.recycled == t.recycled +
           (if d.item.Some? && IsRecyclable(d.item.value.itemId) && ctx.recycle(i) == 1 then Units(d.item.value) else 0)
      && r.balls == t.balls + (if d.item.Some? && IsBallId(d.item.value.itemId)
                               then Repeat(d.item.value.itemId, Units(d.item.value)) else [])
  {
    IncubatorPartKeepsCounters(BeforeIncubators(t, d, i, ctx), d);
  }

  /**
   * Every pokemon entry is counted once: an egg or a kept pokemon adds one
   * to `mons`, a released one adds one to `releases`. A pokemon is released
   * exactly when it is a weak non-egg and its release answered result 1, and
   * then its candy is added; the eggs are listed in `eggs` in entry order.
   */
  lemma {:induction false} EveryPokemonCountedOnce(entries: seq<InventoryItemData>, t0: Tally, ctx: ScanContext)
    ensures var t := Scan(entries, t0, ctx);
      && t.mons + t.releases == t0.mons + t0.releases + PokemonEntries(entries)
      && t.releases == t0.releases + Released(entries, ctx)
      && t.candy == t0.candy + ReleaseCandy(entries, ctx)
      && Released(entries, ctx) <= WeakEntries(entries, ctx)
      && t.eggs == t0.eggs + EggsOf(entries)
      && |EggsOf(entries)| == EggEntries(entries)
  {
    if entries != [] {
      var front := entries[..|entries| - 1];
      EveryPokemonCountedOnce(front, t0, ctx);
      var before := Scan(front, t0, ctx);
      StepCountsPokemon(before, entries[|entries| - 1], |entries| - 1, ctx);
    }
  }

  /**
   * Ball ids 1, 2 and 3 are listed once per unit of their stacks, a stack
   * without a count giving one ball; nothing else enters the ball list.
   */
  lemma {:induction false} BallsWeightedByCount(entries: seq<InventoryItemData>, t0: Tally, ctx: ScanContext, b: int)
    ensures multiset(Scan(entries, t0, ctx).balls)[b] ==
      multiset(t0.balls)[b] + if IsBallId(b) then BallUnits(entries, b) else 0
  {
    if entries != [] {
      var front := entries[..|entries| - 1];
      var d := entries[|entries| - 1];
      BallsWeightedByCount(front, t0, ctx, b);
      StepCountsItems(Scan(front, t0, ctx), d, |entries| - 1, ctx);
      if d.item.Some? && IsBallId(d.item.value.itemId) {
        RepeatCount(d.item.value.itemId, Units(d.item.value), b);
      }
    }
  }

  lemma {:induction false} RepeatCount(x: int, n: int, b: int)
    ensures multiset(Repeat(x, n))[b] == if b == x && n > 0 then n else 0
    decreases n
  {
    if n > 0 {
      RepeatCount(x, n - 1, b);
    }
  }

  /**
   * Item units are conserved: what is counted in `inventory` plus what was
   * recycled grows by exactly the units of the stacks. A potion or revive
   * stack is recycled whole exactly when its recycle answered result 1, so
   * without potions or revives nothing is recycled.
   */
  lemma {:induction false} ItemUnitsConserved(entries: seq<InventoryItemData>, t0: Tally, ctx: ScanContext)
    ensures var t := Scan(entries, t0, ctx);
      && t.inventory + t.recycled == t0.inventory + t0.recycled + ItemUnits(entries)
      && t.recycled == t0.recycled + Recycled(entries, ctx)
      && (NoRecyclables(entries) ==> t.recycled == t0.recycled)
  {
    if entries != [] {
      var front := entries[..|entries| - 1];
      ItemUnitsConserved(front, t0, ctx);
      assert NoRecyclables(entries) ==> NoRecyclables(front);
      StepCountsItems(Scan(front, t0, ctx), entries[|entries| - 1], |entries| - 1, ctx);
    }
  }

  lemma {:induction false} AddIncubatorsTracksTargets(t: Tally, list: seq<Incubator>)
    requires Targets(t.incubators) == t.targetKm
    ensures Targets(AddIncubators(t, list).incubators) == AddIncubators(t, list).targetKm
  {
    if list != [] {
      AddIncubatorsTracksTargets(t, list[..|list| - 1]);
      var before := AddIncubators(t, list[..|list| - 1]);
      var after := before.incubators + [list[|list| - 1]];
      assert after[..|after| - 1] == before.incubators;
    }
  }

  /** The incubator loop appends the whole list to `incubators`, and its targets to `target_km`. */
  lemma {:induction false} AddIncubatorsTracksLists(t: Tally, list: seq<Incubator>)
    ensures AddIncubators(t, list) == t.(incubators := t.incubators + list, targetKm := t.targetKm + Targets(list))
  {
    if list != [] {
      var front := list[..|list| - 1];
      AddIncubatorsTracksLists(t, front);
      assert front + [list[|list| - 1]] == list;
    }
  }

  /** `target_km` lists the target of every incubator seen that has one, in order. */
  lemma {:induction false} TargetsTrackIncubators(entries: seq<InventoryItemData>, t0: Tally, ctx: ScanContext)
    requires Targets(t0.incubators) == t0.targetKm
    ensures Targets(Scan(entries, t0, ctx).incubators) == Scan(entries, t0, ctx).targetKm
  {
    if entries != [] {
      var front := entries[..|entries| - 1];
      var d := entries[|entries| - 1];
      TargetsTrackIncubators(front, t0, ctx);
      var t2 := BeforeIncubators(Scan(front, t0, ctx), d, |entries| - 1, ctx);
      if d.eggIncubators.Some? {
        AddIncubatorsTracksTargets(t2, d.eggIncubators.value);
      }
    }
  }

  /** The incubator loop: every incubator is appended, and its target when it has one. */
  method CollectIncubators(incubators: seq<Incubator>, targetKm: seq<real>, list: seq<Incubator>)
    returns (incubators': seq<Incubator>, targetKm': seq<real>)
    ensures incubators' == incubators + list
    ensures targetKm' == targetKm + Targets(list)
  {
    incubators', targetKm' := incubators, targetKm;
    var j := 0;
    while j < |list|
      invariant 0 <= j <= |list|
      invariant incubators' == incubators + list[..j]
      invariant targetKm' == targetKm + Targets(list[..j])
    {
      assert list[..j + 1][..j] == list[..j];
      incubators' := incubators' + [list[j]];
      if list[j].targetKm.Some? {
        targetKm' := targetKm' + [list[j].targetKm.value];
      }
      j := j + 1;
    }
    assert list[..j] == list;
  }

  /** The pokemon branch of the loop body: keep an egg, release a weak pokemon, count the rest. */
  method CountPokemon(t: Tally, p: PokemonData, i: nat, ctx: ScanContext) returns (r: Tally)
    ensures r == PokemonPart(t, p, i, ctx)
  {
    r := t;
    if p.isEgg.Some? {
      r := r.(eggs := r.eggs + [p]);
      r := r.(mons := r.mons + 1);
    } else {
      var pq := ctx.scale(OrZero(p.attack) + OrZero(p.defense) + OrZero(p.stamina));
      if pq < ctx.powerQuotient {
        var ret := ctx.release(i);
        if ret.result.Some? && ret.result.value == 1 {
          r := r.(candy := r.candy + ret.candyAwarded);
          r := r.(releases := r.releases + 1);
        } else {
          r := r.(mons := r.mons + 1);
        }
      } else {
        r := r.(mons := r.mons + 1);
      }
    }
  }

  /** The item branch of the loop body: list balls, count the stack, recycle potions and revives. */
  method CountStack(t: Tally, stack: ItemStack, i: nat, ctx: ScanContext) returns (r: Tally)
    ensures r == ItemPart(t, stack, i, ctx)
  {
    r := t;
    if stack.itemId in [1, 2, 3] {
      if stack.count.Some? {
        r := r.(balls := r.balls + Repeat(stack.itemId, stack.count.value));
      } else {
        r := r.(balls := r.balls + [stack.itemId]);
      }
    }
    if stack.count.Some? {
      r := r.(inventory := r.inventory + stack.count.value);
    } else {
      r := r.(inventory := r.inventory + 1);
    }
    if stack.itemId in [101, 201, 701] {
      var ri := if stack.count.Some? then stack.count.value else 1;
      var result := ctx.recycle(i);
      if result == 1 {
        r := r.(recycled := r.recycled + ri);
        r := r.(inventory := r.inventory - ri);
      }
    }
  }

  /**
   * One pass over the inventory entries, starting from the counters in
   * `start`. Entry i is answered by `ctx.release(i)` and `ctx.recycle(i)`.
   */
  method ScanInventory(entries: seq<InventoryItemData>, start: Tally, ctx: ScanContext) returns (t: Tally)
    ensures t == Scan(entries, start, ctx)
  {
    t := start;
    var i := 0;
    while i < |entries|
      invariant 0 <= i <= |entries|
      invariant t == Scan(entries[..i], start, ctx)
    {
      var d := entries[i];
      ghost var before := t;
      if d.pokemonData.Some? {
        t := CountPokemon(t, d.pokemonData.value, i, ctx);
      }
      if d.item.Some? {
        t := CountStack(t, d.item.value, i, ctx);
      }
      assert t == BeforeIncubators(before, d, i, ctx);
      if d.eggIncubators.Some? {
        var list := d.eggIncubators.value;
        AddIncubatorsTracksLists(t, list);
        var incubators, targetKm := CollectIncubators(t.incubators, t.targetKm, list);
        t := t.(incubators := incubators, targetKm := targetKm);
      } else if d.playerStats.Some? {
        t := t.(stats := d.playerStats, walked := d.playerStats.value.kmWalked);
      }
      ScanOneMore(entries, start, ctx, i);
      i := i + 1;
    }
    assert entries[..i] == entries;
  }

  // ---------------------------------------------------------------------
  // Hatch check
  // ---------------------------------------------------------------------

  /** The `GET_HATCHED_EGGS` response. */
  datatype HatchReply = HatchReply(success: Option<bool>, stardust: seq<int>, candy: seq<int>, xp: seq<int>)

  /** What the hatch check leaves: `target_km`, whether it asked, and the awards it adds. */
  datatype HatchOutcome = HatchOutcome(targetKm: real, queried: bool, hatched: bool, stardust: int, candy: int, xp: int)

  /**
   * `target_km` becomes the smallest target, or -1 without incubator
   * targets; the hatched eggs are queried once `walked` reaches it, and
   * their awards added when the answer reports success.
   */
  function CheckHatch(targets: seq<real>, walked: real, reply: HatchReply): (r: HatchOutcome)
    ensures |targets| == 0 ==> r.targetKm == -1.0
    ensures |targets| > 0 ==> r.targetKm in targets && forall k :: 0 <= k < |targets| ==> r.targetKm <= targets[k]
    ensures r.queried <==> exists k :: 0 <= k < |targets| && targets[k] <= walked
    ensures r.hatched <==> r.queried && reply.success == Some(true)
    ensures r.hatched ==> r.stardust == Sum(reply.stardust) && r.candy == Sum(reply.candy) && r.xp == Sum(reply.xp)
    ensures !r.hatched ==> r.stardust == 0 && r.candy == 0 && r.xp == 0
  {
    if |targets| > 0 then
      var least := Min(targets);
      if walked >= least then
        if reply.success == Some(true) then
          HatchOutcome(least, true, true, Sum(reply.stardust), Sum(reply.candy), Sum(reply.xp))
        else HatchOutcome(least, true, false, 0, 0, 0)
      else HatchOutcome(least, false, false, 0, 0, 0)
    else HatchOutcome(-1.0, false, false, 0, 0, 0)
  }

  // ---------------------------------------------------------------------
  // Loading incubators
  // ---------------------------------------------------------------------

  /** The incubators that hold no egg, in order. */
  function EmptySlots(incubators: seq<Incubator>): (r: seq<Incubator>)
    ensures |r| <= |incubators|
  {
    if incubators == [] then []
    else
      var ib := incubators[|incubators| - 1];
      EmptySlots(incubators[..|incubators| - 1]) + if ib.pokemonId.None? then [ib] else []
  }

  /** The empty slots are exactly the incubators without `pokemon_id`. */
  lemma {:induction false} EmptySlotsAreEmpty(incubators: seq<Incubator>)
    ensures forall ib :: ib in EmptySlots(incubators) <==> ib in incubators && ib.pokemonId.None?
  {
    if incubators != [] {
      EmptySlotsAreEmpty(incubators[..|incubators| - 1]);
      assert incubators == incubators[..|incubators| - 1] + [incubators[|incubators| - 1]];
    }
  }

  /** The calls among the first n whose answer has result 1. */
  function Successes(reply: nat -> Option<int>, n: nat): (c: nat)
    ensures c <= n
  {
    if n == 0 then 0 else Successes(reply, n - 1) + if reply(n - 1) == Some(1) then 1 else 0
  }

  function MinNat(a: nat, b: nat): nat { if a < b then a else b }

  /**
   * Puts the front egg into each empty incubator while eggs remain. The
   * k-th empty incubator gets the k-th egg, so no egg goes into two
   * incubators and the eggs left are a suffix of the list. `reply(k)` is
   * the result of the k-th `use_item_egg_incubator` call; `calls` lists the
   * (incubator id, egg id) pairs sent.
   */
  method LoadIncubators(incubators: seq<Incubator>, eggs: seq<PokemonData>, reply: nat -> Option<int>)
    returns (rest: seq<PokemonData>, loaded: nat, calls: seq<(string, int)>)
    ensures var slots := EmptySlots(incubators);
      var n := MinNat(|slots|, |eggs|);
      && |calls| == n
      && rest == eggs[n..]
      && (forall k :: 0 <= k < n ==> calls[k] == (slots[k].id, eggs[k].id))
      && loaded == Successes(reply, n)
  {
    rest := eggs;
    loaded := 0;
    calls := [];
    var i := 0;
    while i < |incubators|
      invariant 0 <= i <= |incubators|
      invariant |calls| == MinNat(|EmptySlots(incubators[..i])|, |eggs|)
      invariant rest == eggs[|calls|..]
      invariant forall k :: 0 <= k < |calls| ==> calls[k] == (EmptySlots(incubators[..i])[k].id, eggs[k].id)
      invariant loaded == Successes(reply, |calls|)
    {
      var ib := incubators[i];
      assert incubators[..i + 1][..i] == incubators[..i];
      if ib.pokemonId.None? {
        if |rest| > 0 {
          var egg := rest[0];
          rest := rest[1..];
          var result := reply(|calls|);
          calls := calls + [(ib.id, egg.id)];
          if result.Some? && result.value == 1 {
            loaded := loaded + 1;
          }
        }
      }
      i := i + 1;
    }
    assert incubators[..i] == incubators;
  }

  // ---------------------------------------------------------------------
  // The inventory section of one pass of the main loop
  // ---------------------------------------------------------------------

  /** The session counters the section updates. */
  datatype Session = Session(
    releases: int,
    recycled: int,
    candy: int,
    stardust: int,
    xp: int,
    incubatorsLoaded: int,
    eggsHatched: int,
    stats: Option<PlayerStats>)

  /**
   * The scan, the hatch check and the incubator loading in the order the
   * main loop runs them: the scan restarts its per-pass counters, the hatch
   * check reads the targets and distance the scan found, and the loading
   * uses the incubators and eggs the scan listed.
   */
  method InventorySection(s: Session, entries: seq<InventoryItemData>, ctx: ScanContext,
                          hatch: HatchReply, load: nat -> Option<int>)
    returns (next: Session, t: Tally, h: HatchOutcome, eggsLeft: seq<PokemonData>)
    ensures t == Scan(entries, FreshTally(s.releases, s.recycled, s.candy, s.stats), ctx)
    ensures h == CheckHatch(t.targetKm, t.walked, hatch)
    ensures var n := MinNat(|EmptySlots(t.incubators)|, |t.eggs|);
      && eggsLeft == t.eggs[n..]
      && next == Session(t.releases, t.recycled, t.candy + h.candy, s.stardust + h.stardust, s.xp + h.xp,
                         s.incubatorsLoaded + Successes(load, n),
                         s.eggsHatched + (if h.hatched then 1 else 0), t.stats)
  {
    t := ScanInventory(entries, FreshTally(s.releases, s.recycled, s.candy, s.stats), ctx);
    h := CheckHatch(t.targetKm, t.walked, hatch);
    var loaded, calls;
    eggsLeft, loaded, calls := LoadIncubators(t.incubators, t.eggs, load);
    next := Session(t.releases, t.recycled, t.candy + h.candy, s.stardust + h.stardust, s.xp + h.xp,
                    s.incubatorsLoaded + loaded, s.eggsHatched + (if h.hatched then 1 else 0), t.stats);
  }

  /**
   * In one pass, no more incubators are loaded than there are egg entries
   * in the inventory, and no more than there are empty incubators.
   */
  lemma LoadedAtMostEggs(s: Session, entries: seq<InventoryItemData>, ctx: ScanContext, load: nat -> Option<int>)
    ensures var t := Scan(entries, FreshTally(s.releases, s.recycled, s.candy, s.stats), ctx);
      var loaded := Successes(load, MinNat(|EmptySlots(t.incubators)|, |t.eggs|));
      loaded <= EggEntries(entries) && loaded <= |EmptySlots(t.incubators)|
  {
    EveryPokemonCountedOnce(entries, FreshTally(s.releases, s.recycled, s.candy, s.stats), ctx);
  }
}
