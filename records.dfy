/**
 * Records as the client code sees them: plain JavaScript objects whose
 * properties are strings or arrays of strings. An object is a map from
 * property name to value; the record's identifier is just one more property
 * (`id` in the local store, `_id` for documents returned by the server).
 */
module Records {
  import opened Wrappers
  import opened Collections

  datatype Value = Text(s: string) | List(items: seq<string>)

  type Record = map<string, Value>

  /** `r[key] === v` for a string `v`: the property exists and holds exactly that string. */
  predicate Matches(r: Record, key: string, v: string)
  {
    key in r && r[key] == Text(v)
  }

  /** The selector `r => r[key] === v`, as a value that filters and maps can take. */
  function KeyIs(key: string, v: string): Record -> bool
  {
    r => Matches(r, key, v)
  }

  /** The selector `r => r[key] !== v`. */
  function KeyIsNot(key: string, v: string): Record -> bool
  {
    r => !Matches(r, key, v)
  }

  /** Reading a string property: `undefined` when it is absent or not a string. */
  function TextOf(r: Record, key: string): (v: Option<string>)
    ensures v.Some? <==> key in r && r[key].Text?
    ensures v.Some? ==> Matches(r, key, v.value)
  {
    if key in r && r[key].Text? then Some(r[key].s) else None
  }

  /**
   * Object spread `{...r, ...patch}`: every property of either object, the
   * patch's value winning where both have one.
   */
  function Spread(r: Record, patch: Record): (m: Record)
    ensures m.Keys == r.Keys + patch.Keys
    ensures forall k :: k in patch ==> m[k] == patch[k]
    ensures forall k :: k in r && k !in patch ==> m[k] == r[k]
  {
    r + patch
  }

  /** Spreading the same patch twice is the same as spreading it once. */
  lemma SpreadIdempotent(r: Record, patch: Record)
    ensures Spread(Spread(r, patch), patch) == Spread(r, patch)
  {
  }

  /** What a form hands to its submit handler, as an object: every property a string. */
  function FromForm(data: map<string, string>): (r: Record)
    ensures r.Keys == data.Keys
    ensures forall k :: k in data ==> Matches(r, k, data[k])
  {
    map k | k in data :: Text(data[k])
  }

  /** `xs.filter(r => r[key] !== id)`: every record carrying that id removed. */
  function Removed(xs: seq<Record>, key: string, id: string): (r: seq<Record>)
    ensures forall x :: x in r <==> x in xs && !Matches(x, key, id)
    ensures IsSubsequence(r, xs)
  {
    FilterIsSubsequence(xs, KeyIsNot(key, id));
    Filter(xs, KeyIsNot(key, id))
  }

  /** Removing twice is removing once. */
  lemma RemoveIdempotent(xs: seq<Record>, key: string, id: string)
    ensures Removed(Removed(xs, key, id), key, id) == Removed(xs, key, id)
  {
    FilterIdempotent(xs, KeyIsNot(key, id));
  }

  /** Removing an id no record carries changes nothing. */
  lemma RemoveMissingId(xs: seq<Record>, key: string, id: string)
    requires forall x :: x in xs ==> !Matches(x, key, id)
    ensures Removed(xs, key, id) == xs
  {
    FilterAllKept(xs, KeyIsNot(key, id));
  }

  /** Removing from a concatenation removes from each part, the survivors keeping their order. */
  lemma RemoveKeepsOrder(xs: seq<Record>, ys: seq<Record>, key: string, id: string)
    ensures Removed(xs + ys, key, id) == Removed(xs, key, id) + Removed(ys, key, id)
  {
    FilterConcat(xs, ys, KeyIsNot(key, id));
  }
}
