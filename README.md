# pgoapi example bots, modelled in Dafny

The pgoapi repository ships two example clients for the Pokémon GO game
server protocol:

- a small bot class, `PoGoBot`, with its launcher (examples/bot/bot.py and
  examples/bot/__main__.py);
- a random-walk script (examples/random-walk.py).

Around their network calls, both contain sequential decision logic. This
project models that logic and proves what it promises:

- how inventory entries are sorted into categories and the ball list is
  built;
- the throw-until-terminal capture loop over a shared ball list that is
  consumed from the front;
- which forts are searched, and when a spin is recorded;
- the map-cell walk around a position;
- the login retry counter;
- the random-walk inventory pass: releases, recycling, ball counting,
  incubator targets, the hatch check and incubator loading;
- one `find_poi` round;
- the launcher's settings merge, made from config.json, the command line
  and a coordinates file.

Every server call becomes an oracle, i.e. a function argument that gives
the decoded answer to each call. The index is whatever identifies the call:
- the attempt number for logins and throws;
- the entry number for release and recycle;
- the fort's position for fort searches;
- the cell and position within the cell in `find_poi`;
- the call's position for incubator loading.

Calls that are repeated until the response holds the expected key are one
oracle answer.
A response field is an `Option` exactly where the scripts test for the key
with `in`.

The files are:

- util.dfy: `Option`, `sorted` and `sum`.
- protocol.dfy: the response records shared by both scripts, and fort
  eligibility.
- capture.dfy: the capture loop as a specification.
- cells.dfy: `get_cell_ids`.
- bot.dfy: class `PoGoBot`.
- walk_key.dfy: `get_key_from_pokemon`.
- walk_inventory.dfy: the inventory section of random-walk's main loop.
- walk_poi.dfy: `find_poi`.
- config.dfy: `init_config` of the launcher.

`get_cell_ids` appears twice, with the same body: examples/bot/bot.py:124-134
and examples/random-walk.py:123-137. `CellWalk.GetCellIds` models both.

## Model

| member | source | states |
|---|---|---|
| Util.Sort | examples/bot/bot.py:87 | `sorted` on integers: the result is ascending and a permutation of the input (same multiset, same length) |
| Util.Min | examples/random-walk.py:390 | `min` of a non-empty list is an element of the list and no larger than any element |
| Capture.ThrowsFrom | examples/bot/bot.py:170-185 | a capture loop never throws more balls than it holds, and throws at least one when it holds any |
| Capture.RunShape | examples/bot/bot.py:170-185 | every throw but the last was answered "throw again"; the last answer is terminal unless the balls ran out |
| Capture.StopsAtFirstTerminal | examples/bot/bot.py:179-185 | the loop stops exactly at the first terminal answer (status 0, 1 or 3) when a ball is left for it |
| Capture.CaughtIffStatusOne | examples/bot/bot.py:179-183 | the encounter is captured if and only if some throw the loop reaches is answered with status 1 |
| Capture.RetryingThrowsAtLeastAsMany | examples/random-walk.py:222-240 | stopping on a missing status (random-walk) never throws more than throwing again (bot); both throw the same when every answer has a status |
| CellWalk.WalkContents | examples/random-walk.py:125-134 | the walk has 2·radius+1 ids and holds exactly the origin and its first `radius` successors and predecessors |
| CellWalk.GetCellIds | examples/random-walk.py:123-137 | the ids are sorted, there are 2·max(radius,0)+1 of them, they are a permutation of the walk, and an id is listed iff it lies within `radius` steps of the origin |
| Bot.StepTouchesOnlyItsCategory | examples/bot/bot.py:69-86 | by the `elif` chain an entry changes only the category it is filed under; a stack without `count` or a candy entry without `candy` changes nothing |
| Bot.EggsKeepLastEntry | examples/bot/bot.py:77-79 | `eggs` holds id k iff some entry is an egg with id k, and then holds the data of the last such entry |
| Bot.PokemonKeepLastEntry | examples/bot/bot.py:77-81 | `pokemon` holds id k iff some entry is a non-egg pokemon with id k, and then holds the last such entry |
| Bot.BallsMatchItems | examples/bot/bot.py:69-73 | a ball id is listed iff it is 1, 2 or 3 and its stack has a count; it is listed exactly once per counted stack of that id, whatever the count |
| Bot.BallsCountStacks | examples/bot/bot.py:69-73 | the number of copies of ball id b in the list is the number of counted stacks of id b when b is 1, 2 or 3, and 0 otherwise |
| Bot.SortedBallsAreBalls | examples/bot/bot.py:71-87 | every element of the sorted ball list is 1, 2 or 3 |
| Bot.PoisFromCells | examples/bot/bot.py:144-150 | the collected encounters and forts are exactly those of the map cells that carry the key |
| Bot.SearchesExactlyEligible | examples/bot/bot.py:160-163 | `fort_search` is called for exactly the forts of type 1 without cooldown within 0.0004495, once each, in order |
| Bot.SpunOnlyOnSuccess | examples/bot/bot.py:160-166 | a fort is recorded as spun iff it was eligible and its search answered result 1; never more spins than searches |
| Bot.ThrownFrom | examples/bot/bot.py:191-194 | all encounters of one call together throw no more balls than the shared list held at the start |
| Bot.CaughtFromEncounters | examples/bot/bot.py:191-194 | one call catches at most one pokemon per encounter |
| Bot.CaughtAreEncountered | examples/bot/bot.py:191-194 | every catch is one of the encounters (as a multiset, no more often than it is listed) |
| Bot.PoGoBot.constructor | examples/bot/bot.py:19-30 | the bot starts with no catches and no spins |
| Bot.PoGoBot.Login | examples/bot/bot.py:32-50 | at most one attempt when retries < 2, otherwise at most `retries`; succeeds iff some allowed attempt is accepted; `attempts` counts the rejected ones |
| Bot.PoGoBot.ProcessInventory | examples/bot/bot.py:55-88 | the snapshot is the `elif` triage of the entries and `balls` is the sorted list of ball ids, each 1, 2 or 3 |
| Bot.PoGoBot.GetPois | examples/bot/bot.py:136-155 | with a status-1 scan, `pois` holds the cells' encounters and forts; otherwise it is empty and the result is None |
| Bot.PoGoBot.SpinForts | examples/bot/bot.py:157-167 | searches exactly the eligible forts; `spins` grows by the eligible forts answered with result 1 |
| Bot.PoGoBot.CatchPokemon | examples/bot/bot.py:169-186 | with no ball it returns None and throws nothing; each throw removes exactly the front ball; the encounter is appended iff a throw answers status 1; returns the terminal answer |
| Bot.PoGoBot.CatchWildPokemon | examples/bot/bot.py:188-194 | the encounters share `balls`: the balls left are a suffix of those held, and `catches` grows by the encounters caught, in order |
| WalkKey.IntRoundTrip | examples/random-walk.py:182 | the decimal text of an integer (with a minus sign when negative) reads back as the same integer |
| WalkKey.GetKeyFromPokemon | examples/random-walk.py:181-182 | the key is the spawn point id, then '-', then text that reads back as the species number |
| WalkKey.KeyDeterminesSpawnAndSpecies | examples/random-walk.py:181-182 | for spawn ids without '-', equal keys mean equal spawn point and equal species |
| WalkInventory.Repeat | examples/random-walk.py:360 | `[x] * n` holds n copies of x, and none when n is not positive |
| WalkInventory.EveryPokemonCountedOnce | examples/random-walk.py:334-356 | each pokemon entry adds one to exactly one of `mons` or `releases`; `releases` grows by exactly the weak non-eggs whose release answered result 1 (so at most the weak entries), `candy` by their `candy_awarded`; `eggs` grows by exactly the egg entries, in order |
| WalkInventory.BallsWeightedByCount | examples/random-walk.py:358-362 | ball id b ∈ {1,2,3} is added once per unit of its stacks (one for a stack without count); no other id enters `balls` |
| WalkInventory.ItemUnitsConserved | examples/random-walk.py:363-379 | `inventory` + `recycled_items` grows by exactly the units of all stacks; `recycled_items` grows by the whole units of exactly the 101/201/701 stacks whose recycle answered result 1, so without them nothing is recycled |
| WalkInventory.TargetsTrackIncubators | examples/random-walk.py:381-385 | `target_km` lists the target of every incubator collected that has one, in order |
| WalkInventory.CollectIncubators | examples/random-walk.py:381-385 | the incubator loop appends every incubator of the entry, and the target of each that has one, in order |
| WalkInventory.ScanInventory | examples/random-walk.py:333-388 | the loop computes the pass `Scan` over the entries (the properties above are proved about `Scan`) |
| WalkInventory.CheckHatch | examples/random-walk.py:389-404 | `target_km` is the least target or -1; the hatch query fires iff some target ≤ `walked`; awards and a hatch are counted iff it reports success |
| WalkInventory.EmptySlotsAreEmpty | examples/random-walk.py:406-407 | the slots considered are exactly the incubators without `pokemon_id` |
| WalkInventory.LoadIncubators | examples/random-walk.py:406-415 | the k-th empty incubator gets the k-th egg entry while eggs remain, so no egg entry is handed out twice (the list holds every egg entry, including eggs already in an incubator, as `eggs` does in the source); the eggs left are a suffix; `incubators_loaded` counts the result-1 answers |
| WalkInventory.InventorySection | examples/random-walk.py:319-415 | one pass restarts the per-pass counters, checks hatching with the targets and distance the scan found, and loads incubators with the eggs it listed |
| WalkInventory.LoadedAtMostEggs | examples/random-walk.py:406-415 | one pass loads no more incubators than there are egg entries or empty incubators |
| WalkPoi.ThrowAdvances | examples/random-walk.py:210-240 | one capture loop takes balls from the front and catches at most one pokemon, the one encountered, only by using a ball; it is caught exactly when the run ends on status 1 |
| WalkPoi.SearchFortAdvances | examples/random-walk.py:244-254 | a spin is recorded only for an eligible stop |
| WalkPoi.FindPoiAccounting | examples/random-walk.py:184-256 | the balls thrown are a prefix of the list given (the lowest ids when it is sorted); catches ≤ balls thrown; every spin is eligible; nothing happens unless the scan status is 1 |
| WalkPoi.CaptureLoop | examples/random-walk.py:210-240 | pops the front ball per throw; stops when out of balls, on a missing status, or on status 0, 1 or 3; on 1 appends the encounter and adds the award sums |
| WalkPoi.VisitEncounters | examples/random-walk.py:200-240 | each encounter with `ENCOUNTER` status 1 runs the capture loop on the shared balls, in order |
| WalkPoi.VisitForts | examples/random-walk.py:241-254 | each eligible fort answered with result 1 is spun and its experience (if present) added |
| WalkPoi.FindPoi | examples/random-walk.py:184-256 | returns the spins, catches and award totals of the round (`FindPoiSpec`, whose properties are proved above) |
| BotConfig.JoinPath | examples/bot/__main__.py:53 | `os.path.join` keeps the directory as prefix and ends with the tail |
| BotConfig.ResolveCoordsPath | examples/bot/__main__.py:49-53 | a name ending in ".json" is used verbatim; otherwise the path is the script directory joined with "coords/<name>.json" |
| BotConfig.ApplyCoords | examples/bot/__main__.py:56-65 | `bounds` and `location` take the coordinates file's values, or are deleted when the file lacks them; other keys are unchanged |
| BotConfig.MergeNamespaceAt | examples/bot/__main__.py:67-70 | the argument loop sets a key to its parsed value when that is not None and the key is not `coords`, and otherwise leaves it |
| BotConfig.ArgumentsWin | examples/bot/__main__.py:67-70 | every declared option other than `coords` whose value is not None overrides config.json and the coordinates file |
| BotConfig.FlagsAlwaysOverwrite | examples/bot/__main__.py:42-70 | `debug`, `best_balls_first`, `nospin`, `nocatch` and `DEBUG` always end up as given, or False, whatever config.json says |
| BotConfig.UntouchedKeys | examples/bot/__main__.py:67-70 | `coords` is never copied from the command line; undeclared keys other than `bounds` and `location` keep the config.json value |
| BotConfig.CoordsReplaceOrDelete | examples/bot/__main__.py:56-70 | with a coordinates file, `bounds` and `location` are the file's or absent, unless the command line gives them |
| BotConfig.AuthServiceAlwaysSet | examples/bot/__main__.py:30-76 | once the parser accepts the command line, `auth_service` is set, so the validation lookup cannot fail |
| BotConfig.CleanCoords | examples/bot/__main__.py:56-65 | the coordinates step computes `ApplyCoords` |
| BotConfig.CopyArguments | examples/bot/__main__.py:67-70 | the argument loop computes `MergeArgs` |
| BotConfig.InitConfig | examples/bot/__main__.py:19-80 | the coordinates path is read iff `--coords` is given; the result is the merged settings iff the parser accepts, a location is set and the service is "ptc" or "google", else None |

## Left out

- Network, timing and randomness: `time.sleep`, the random throw
  parameters, `random.uniform`/`gauss`, and the outer `while True` loops
  (`play`, `main`). Every server answer is an oracle argument.
- Retry-until-key loops (`while True: ... if "X" in ret['responses']: break`):
  each is one oracle answer. A server that never answers would make them
  loop forever.
- In random-walk, the throw retry (examples/random-walk.py:217-221) and the
  incubator retry (examples/random-walk.py:409-413) call `balls.pop(0)` or
  `eggs.pop(0)` inside the retry loop. Each retry of the source therefore
  uses up one more ball or egg, and raises IndexError once the list is
  empty. With one oracle answer per call, the model pops exactly once per
  throw or load. So "one ball per throw" (WalkPoi.CaptureLoop) and "the
  k-th empty incubator gets the k-th egg" (WalkInventory.LoadIncubators)
  hold only when the first request of each retry loop is answered.
- KeyError, IndexError and AttributeError crashes are not modelled. These
  come from indexing response keys without testing (`result`,
  `candy_awarded`, `item_id` and so on), which are mandatory fields here.
- Movement and map rendering: `move`, the random-walk position update,
  `save_map`, `save_config`, `gmap.py`, the `Map` class and geocoding
  (`get_pos_by_name`). They are floating-point trigonometry, HTML and I/O.
- s2sphere geometry: the origin cell id is an input, and `next()`/`prev()`
  are arbitrary functions on ids.
- `math.hypot(d) < 0.0004495` is decided exactly over the reals as
  d_lat² + d_lng² < 0.0004495². Float rounding is not modelled.
- The encounter distance guard in `find_poi` compares with `float("inf")`,
  so every encounter passes it. The model drops the guard, which does not
  capture NaN or infinite coordinates.
- WalkInventory.ScanContext: the power quotient `int(round(pq/45.0,2)*100)`
  is a float computation. It is the abstract `scale` function, applied to
  the integer IV sum.
- The incense section of the random-walk loop
  (examples/random-walk.py:436-454) and the player, currency and summary
  printing (examples/random-walk.py:312-318, 496-550) are not modelled.
  The incense catch is a single unchecked throw that pops from `balls`.
- `get_hatched_eggs`, `get_rewards` and `process_player` of bot.py only
  forward or print responses, and are not modelled. `get_trainer_info`
  (examples/bot/bot.py:90-101) sends one request and hands its
  `GET_INVENTORY` part to `process_inventory`, which
  Bot.PoGoBot.ProcessInventory models. Its `process_player` half and the
  request itself are not modelled.
- `encode` (examples/random-walk.py:139-142) is a wrapper over a protobuf
  varint encoder that nothing calls.
- random-walk's own `init_config` (examples/random-walk.py:144-179) is not
  modelled. Only the bot launcher's `init_config` is.
- The launcher's `__main__` block is not modelled. It geocodes a textual
  location and then calls `bot.run()`, which bot.py does not define: it
  defines `play`.
- The parsed `revisit`, `minpokemon`, `speed`, `radius` and
  `best_balls_first` values are merged into the settings, but bot.py never
  reads them.
- Bot.PoGoBot.CatchWildPokemon: the `ENCOUNTER` response is ignored, as in
  the source. Every listed encounter is thrown at, whatever its answer.
- Bot.PoGoBot.constructor: the source sets `balls`, `pois` and `inventory`
  only in `process_inventory`/`get_pois`. The model starts them empty
  instead of leaving them undefined. The constructor's API client, angle,
  timers and coordinate history are not modelled.
- find_poi's `poi['forts']` list is filled but never read, and is not
  modelled. `find_poi` is given `sorted(balls)`, a copy, so the balls it
  throws are not removed from the main loop's list, and `FindPoi` does not
  return them.
- BotConfig.InitConfig: a command line that argparse rejects makes
  `parse_args` (examples/bot/__main__.py:47) end the program with
  SystemExit(2), so `init_config` never returns. The model returns None in
  that case too, the same value as for a missing location or an invalid
  service. `DEBUG` is only a parser default
  (examples/bot/__main__.py:46), so no command line gives it.
- BotConfig.InitConfig: argparse is modelled only as far as `init_config`
  depends on it. The model covers which options exist, which are required
  when config.json lacks the key, and their defaults. It does not model
  type conversion of option values or the usage message. A JSON value
  loaded from config.json is compared structurally.
- The `str(id)` dictionary keys of `process_inventory` are integer keys.
  `str` is injective on integers, so the keying is the same, except for
  incubators, whose ids are already text.
