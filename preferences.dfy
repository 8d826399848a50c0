/**
 * The per-user preference store the page reads and writes. For course
 * module `id` it uses two independent keys: `"cf_link " + id` for a link
 * issued earlier and `"cf_link " + id + " name"` for the folder name the
 * user chose. Writing `null` to a key removes it.
 */
module Preferences {

  import opened Wrappers
  import opened Decimal

  /** Key of the stored access link of course module `id`. */
  function LinkKey(id: nat): string {
    "cf_link " + NatToString(id)
  }

  /** Key of the folder name chosen for course module `id`. */
  function NameKey(id: nat): string {
    LinkKey(id) + " name"
  }

  /**
   * PHP's loose `$v == null` on a preference value: true for a missing value
   * and for the empty string alike.
   */
  predicate IsNullish(v: Option<string>) {
    v.None? || v.value == ""
  }

  /** The value stored under `key`, or None when there is none. */
  function Lookup(prefs: map<string, string>, key: string): (v: Option<string>)
    ensures v.Some? <==> key in prefs
    ensures v.Some? ==> v.value == prefs[key]
  {
    if key in prefs then Some(prefs[key]) else None
  }

  /** The store after writing `value` to `key`; writing None removes the key. */
  function Updated(prefs: map<string, string>, key: string, value: Option<string>): (r: map<string, string>)
    ensures Lookup(r, key) == value
    ensures forall k :: k != key ==> Lookup(r, k) == Lookup(prefs, k)
  {
    if value.None? then prefs - {key} else prefs[key := value.value]
  }

  /** The two keys of one course module never meet the keys of another. */
  lemma {:induction false} KeysDistinct(a: nat, b: nat)
    ensures LinkKey(a) != NameKey(b)
    ensures a != b ==> LinkKey(a) != LinkKey(b) && NameKey(a) != NameKey(b)
  {
    var sa, sb := NatToString(a), NatToString(b);
    if |sa| == |sb| + 5 {
      assert IsDigit(LinkKey(a)[8 + |sb|]) by { assert LinkKey(a)[8 + |sb|] == sa[|sb|]; }
      assert NameKey(b)[8 + |sb|] == ' ';
    }
    if LinkKey(a) == LinkKey(b) {
      assert sa == LinkKey(a)[8..] == LinkKey(b)[8..] == sb;
      NatToStringInjective(a, b);
    }
    if NameKey(a) == NameKey(b) {
      assert |sa| == |sb|;
      assert sa == NameKey(a)[8..8 + |sa|] == NameKey(b)[8..8 + |sb|] == sb;
      NatToStringInjective(a, b);
    }
  }

  /** The user-preference store of the acting user. */
  class PreferenceStore {

    var prefs: map<string, string>

    constructor ()
      ensures prefs == map[]
    {
      prefs := map[];
    }

    /** `get_user_preferences(key)`: the stored value, None when unset. */
    function Get(key: string): (v: Option<string>)
      reads this
      ensures v.Some? <==> key in prefs
      ensures v.Some? ==> v.value == prefs[key]
    {
      Lookup(prefs, key)
    }

    /** `set_user_preference(key, value)`; a None value unsets the key. */
    method Set(key: string, value: Option<string>)
      modifies this
      ensures prefs == Updated(old(prefs), key, value)
      ensures Get(key) == value
      ensures forall k :: k != key ==> Get(k) == old(Get(k))
    {
      prefs := Updated(prefs, key, value);
    }
  }
}
