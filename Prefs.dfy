/**
 * Android's SharedPreferences, modelled as a finite map from keys to typed values.
 * A getter returns the stored value when the key holds a value of its type and the
 * caller's default otherwise; a put replaces the value of one key.
 */
module Prefs {

  datatype Value = BoolV(b: bool) | IntV(i: int) | StrV(s: string)

  type Store = map<string, Value>

  function GetBool(p: Store, key: string, dflt: bool): bool {
    if key in p && p[key].BoolV? then p[key].b else dflt
  }

  function GetInt(p: Store, key: string, dflt: int): int {
    if key in p && p[key].IntV? then p[key].i else dflt
  }

  function GetString(p: Store, key: string, dflt: string): string {
    if key in p && p[key].StrV? then p[key].s else dflt
  }

  function PutBool(p: Store, key: string, v: bool): Store {
    p[key := BoolV(v)]
  }

  function PutInt(p: Store, key: string, v: int): Store {
    p[key := IntV(v)]
  }

  function PutString(p: Store, key: string, v: string): Store {
    p[key := StrV(v)]
  }

  /** A string written under one key is read back there, and every other key reads as before. */
  lemma GetPutString(p: Store, key: string, v: string, other: string, dflt: string)
    ensures GetString(PutString(p, key, v), other, dflt) == if other == key then v else GetString(p, other, dflt)
  {
  }

  /** Writing the value a key already holds leaves the store as it was. */
  lemma PutStringSame(p: Store, key: string, v: string)
    requires key in p && p[key] == StrV(v)
    ensures PutString(p, key, v) == p
  {
    assert PutString(p, key, v).Keys == p.Keys;
  }
}
