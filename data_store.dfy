/**
 * The persisted preference store (`DataStoreHelper`): one key -> value map in which every
 * key holds a value of one of the supported types. Each `save*` replaces the value of one
 * key, each `get*` looks a key up and falls back to a caller-supplied default, and
 * `clearAll` empties the store. Every call is one atomic update or read of the map.
 */
module DataStore {

  /** Kotlin `Int`: a 32-bit two's-complement integer. */
  newtype Int32 = x: int | -0x8000_0000 <= x < 0x8000_0000

  /** Kotlin `Long`: a 64-bit two's-complement integer. */
  newtype Int64 = x: int | -0x8000_0000_0000_0000 <= x < 0x8000_0000_0000_0000

  /** A stored value, tagged with the type of the preference key that wrote it. */
  datatype PrefValue =
    | StringPref(s: string)
    | BoolPref(b: bool)
    | IntPref(i: Int32)
    | LongPref(l: Int64)

  /** The contents of the store. */
  type Prefs = map<string, PrefValue>

  /** What `getString` reads: the stored string, or `defaultValue` when there is none. */
  function StringOr(p: Prefs, key: string, defaultValue: string): string
  {
    if key in p && p[key].StringPref? then p[key].s else defaultValue
  }

  /** What `getBoolean` reads. */
  function BoolOr(p: Prefs, key: string, defaultValue: bool): bool
  {
    if key in p && p[key].BoolPref? then p[key].b else defaultValue
  }

  /** What `getInt` reads. */
  function IntOr(p: Prefs, key: string, defaultValue: Int32): Int32
  {
    if key in p && p[key].IntPref? then p[key].i else defaultValue
  }

  /** What `getLong` reads. */
  function LongOr(p: Prefs, key: string, defaultValue: Int64): Int64
  {
    if key in p && p[key].LongPref? then p[key].l else defaultValue
  }

  /** Every getter of key `k` reads the same in `p` and `q`. */
  ghost predicate ReadsAlike(p: Prefs, q: Prefs, k: string)
  {
    && (forall d :: StringOr(p, k, d) == StringOr(q, k, d))
    && (forall d :: BoolOr(p, k, d) == BoolOr(q, k, d))
    && (forall d :: IntOr(p, k, d) == IntOr(q, k, d))
    && (forall d :: LongOr(p, k, d) == LongOr(q, k, d))
  }

  /** The preference store of one application context. */
  class DataStoreHelper {
    var prefs: Prefs

    /** Opens the store with whatever an earlier run of the process persisted. */
    constructor (persisted: Prefs)
      ensures prefs == persisted
    {
      prefs := persisted;
    }

    method SaveString(key: string, value: string)
      modifies this
      ensures prefs == old(prefs)[key := StringPref(value)]
    {
      prefs := prefs[key := StringPref(value)];
    }

    method GetString(key: string, defaultValue: string := "") returns (r: string)
      ensures key !in prefs ==> r == defaultValue
      ensures r == StringOr(prefs, key, defaultValue)
    {
      r := StringOr(prefs, key, defaultValue);
    }

    method SaveInt(key: string, value: Int32)
      modifies this
      ensures prefs == old(prefs)[key := IntPref(value)]
    {
      prefs := prefs[key := IntPref(value)];
    }

    method GetInt(key: string, defaultValue: Int32 := 0) returns (r: Int32)
      ensures key !in prefs ==> r == defaultValue
      ensures r == IntOr(prefs, key, defaultValue)
    {
      r := IntOr(prefs, key, defaultValue);
    }

    method SaveBoolean(key: string, value: bool)
      modifies this
      ensures prefs == old(prefs)[key := BoolPref(value)]
    {
      prefs := prefs[key := BoolPref(value)];
    }

    method GetBoolean(key: string, defaultValue: bool := false) returns (r: bool)
      ensures key !in prefs ==> r == defaultValue
      ensures r == BoolOr(prefs, key, defaultValue)
    {
      r := BoolOr(prefs, key, defaultValue);
    }

    method SaveLong(key: string, value: Int64)
      modifies this
      ensures prefs == old(prefs)[key := LongPref(value)]
    {
      prefs := prefs[key := LongPref(value)];
    }

    method GetLong(key: string, defaultValue: Int64 := 0) returns (r: Int64)
      ensures key !in prefs ==> r == defaultValue
      ensures r == LongOr(prefs, key, defaultValue)
    {
      r := LongOr(prefs, key, defaultValue);
    }

    method ClearAll()
      modifies this
      ensures prefs == map[]
    {
      prefs := map[];
    }
  }

  /** Each typed save followed by the matching get returns the saved value, whatever the default. */
  lemma SaveThenGet(p: Prefs, k: string, s: string, ds: string, b: bool, db: bool,
                    i: Int32, di: Int32, l: Int64, dl: Int64)
    ensures StringOr(p[k := StringPref(s)], k, ds) == s
    ensures BoolOr(p[k := BoolPref(b)], k, db) == b
    ensures IntOr(p[k := IntPref(i)], k, di) == i
    ensures LongOr(p[k := LongPref(l)], k, dl) == l
  {
  }

  /** A key that was never written reads as the supplied default, for every getter. */
  lemma UnwrittenReadsDefault(p: Prefs, k: string)
    requires k !in p
    ensures forall d :: StringOr(p, k, d) == d
    ensures forall d :: BoolOr(p, k, d) == d
    ensures forall d :: IntOr(p, k, d) == d
    ensures forall d :: LongOr(p, k, d) == d
  {
  }

  /** A save changes only the key it names: every other key reads as before. */
  lemma SaveChangesOnlyItsKey(p: Prefs, k: string, v: PrefValue, other: string)
    requires other != k
    ensures ReadsAlike(p[k := v], p, other)
  {
  }

  /** Two saves to one key leave the store as the second save alone would. */
  lemma LastWriteWins(p: Prefs, k: string, v1: PrefValue, v2: PrefValue)
    ensures p[k := v1][k := v2] == p[k := v2]
  {
  }

  /** After `clearAll` every getter returns its default for every key. */
  lemma ClearedReadsDefault(p: Prefs)
    requires p == map[]
    ensures forall k, d :: StringOr(p, k, d) == d
    ensures forall k, d :: BoolOr(p, k, d) == d
    ensures forall k, d :: IntOr(p, k, d) == d
    ensures forall k, d :: LongOr(p, k, d) == d
  {
  }
}
