/** The device key-value store (AsyncStorage) and the way the app keeps a
    boolean flag in it: written as `String(flag)`, read back as `value === "true"`,
    with a missing key meaning `true`. */
module Storage {
  import opened Wrappers

  /** What `getItem` resolves to: the stored string, or null for a missing key. */
  function Lookup(items: map<string, string>, key: string): (v: Option<string>)
    ensures v.Some? <==> key in items
    ensures v.Some? ==> v.value == items[key]
  {
    if key in items then Some(items[key]) else None
  }

  class KeyValueStore {
    var items: map<string, string>

    constructor (items: map<string, string>)
      ensures this.items == items
    {
      this.items := items;
    }

    method GetItem(key: string) returns (value: Option<string>)
      ensures value.Some? <==> key in items
      ensures value.Some? ==> value.value == items[key]
    {
      if key in items {
        value := Some(items[key]);
      } else {
        value := None;
      }
    }

    method SetItem(key: string, value: string)
      modifies this
      ensures items == old(items)[key := value]
    {
      items := items[key := value];
    }
  }

  /** The flag a stored value stands for: a missing key is `true`, and a present
      value is `true` only when it is exactly "true". */
  function DecodeFlag(stored: Option<string>): (flag: bool)
    ensures flag <==> stored == None || stored == Some("true")
  {
    match stored
    case None => true
    case Some(v) => v == "true"
  }

  /** `String(flag)`. */
  function EncodeFlag(flag: bool): (s: string)
    ensures s == "true" || s == "false"
    ensures flag <==> s == "true"
  {
    if flag then "true" else "false"
  }

  /** A flag written to `key` is read back unchanged, whatever else the store holds. */
  lemma FlagRoundTrip(items: map<string, string>, key: string, flag: bool)
    ensures DecodeFlag(Lookup(items[key := EncodeFlag(flag)], key)) == flag
  {
  }
}
