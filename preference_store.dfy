/**
 * The integer part of the platform's key-value preference store
 * (`SharedPreferences.getInt` / `edit { putInt }`), keyed by preference file
 * and key.
 */
module PreferenceStore {
  import opened KotlinText

  datatype PrefKey = PrefKey(file: string, key: string)

  class SharedPreferences {
    var ints: map<PrefKey, Int32>

    constructor ()
      ensures ints == map[]
    {
      ints := map[];
    }

    /** `getInt(key, default)`: the stored value, or the default when nothing is stored. */
    function GetInt(key: PrefKey, default: Int32): (v: Int32)
      reads this
      ensures key in ints ==> v == ints[key]
      ensures key !in ints ==> v == default
    {
      if key in ints then ints[key] else default
    }

    /** `putInt(key, value)`: later reads of `key` see `value`; every other key keeps its value. */
    method PutInt(key: PrefKey, value: Int32)
      modifies this
      ensures ints == old(ints)[key := value]
      ensures forall default: Int32 :: GetInt(key, default) == value
    {
      ints := ints[key := value];
    }
  }
}
