/**
 * `get_key_from_pokemon` (examples/random-walk.py): the text key of a wild
 * encounter, its spawn point id, a dash, and its species number written in
 * decimal the way Python's `format` writes an integer.
 */
module WalkKey {
  import opened Protocol

  predicate IsDigit(c: char) { '0' <= c <= '9' }

  function DigitChar(d: nat): (c: char)
    requires d < 10
    ensures IsDigit(c)
  {
    ['0', '1', '2', '3', '4', '5', '6', '7', '8', '9'][d]
  }

  function DigitValue(c: char): nat {
    if IsDigit(c) then (c as int - '0' as int) as nat else 0
  }

  lemma DigitRoundTrip(d: nat)
    requires d < 10
    ensures DigitValue(DigitChar(d)) == d
  {
  }

  /** The decimal digits of a natural number, most significant first, without leading zeros. */
  function NatToString(n: nat): (s: string)
    ensures |s| > 0
    ensures forall k :: 0 <= k < |s| ==> IsDigit(s[k])
    ensures |s| > 1 ==> s[0] != '0'
  {
    if n < 10 then [DigitChar(n)] else NatToString(n / 10) + [DigitChar(n % 10)]
  }

  /** The value of a string of decimal digits. */
  function ParseNat(s: string): nat {
    if s == [] then 0 else 10 * ParseNat(s[..|s| - 1]) + DigitValue(s[|s| - 1])
  }

  /** Reading back the digits gives the number written. */
  lemma {:induction false} NatRoundTrip(n: nat)
    ensures ParseNat(NatToString(n)) == n
  {
    DigitRoundTrip(n % 10);
    if n >= 10 {
      var s := NatToString(n);
      assert s[..|s| - 1] == NatToString(n / 10);
      NatRoundTrip(n / 10);
    } else {
      assert NatToString(n)[..0] == [];
    }
  }

  /** Python's `'{}'.format(i)` for an integer: a minus sign before the digits of a negative number. */
  function IntToString(i: int): (s: string)
    ensures |s| > 0 && '-' !in s[1..]
    ensures (s[0] == '-') <==> i < 0
  {
    if i < 0 then "-" + NatToString(-i) else NatToString(i)
  }

  function ParseInt(s: string): int {
    if |s| > 0 && s[0] == '-' then 0 - ParseNat(s[1..]) as int else ParseNat(s)
  }

  /** The integer text reads back as the same integer, so different species give different texts. */
  lemma IntRoundTrip(i: int)
    ensures ParseInt(IntToString(i)) == i
  {
    var s := IntToString(i);
    if i < 0 {
      NatRoundTrip(-i);
      assert s[1..] == NatToString(-i);
    } else {
      NatRoundTrip(i);
      assert IsDigit(s[0]);
    }
  }

  /** The key of an encounter: spawn point id, '-', species number. */
  function GetKeyFromPokemon(p: WildPokemon): (key: string)
    ensures |key| > |p.spawnPointId| && key[|p.spawnPointId|] == '-'
    ensures key[..|p.spawnPointId|] == p.spawnPointId
    ensures ParseInt(key[|p.spawnPointId| + 1..]) == p.pokemonId
  {
    var tail := IntToString(p.pokemonId);
    IntRoundTrip(p.pokemonId);
    var key := p.spawnPointId + "-" + tail;
    assert key[|p.spawnPointId| + 1..] == tail;
    key
  }

  /**
   * Spawn point ids are hexadecimal and hold no dash, and then the key
   * identifies the encounter's spawn point and species: equal keys mean
   * equal spawn points and equal species.
   */
  lemma KeyDeterminesSpawnAndSpecies(p: WildPokemon, q: WildPokemon)
    requires '-' !in p.spawnPointId && '-' !in q.spawnPointId
    requires GetKeyFromPokemon(p) == GetKeyFromPokemon(q)
    ensures p.spawnPointId == q.spawnPointId && p.pokemonId == q.pokemonId
  {
  }
}
