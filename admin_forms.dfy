/**
 * What the team and services admin pages share: the form values they
 * submit, the way they pre-fill the form from an existing record, and the
 * JavaScript truthiness test that decides between adding and updating.
 * Form values are strings; the one list-valued field (skills, or features)
 * is edited as newline-separated text.
 */
module AdminForms {
  import opened Wrappers
  import opened Records
  import opened NewlineList

  /** `if (editing)` on the id being edited: `null` and the empty string are both falsy. */
  function IsEditing(editing: Option<string>): (b: bool)
    ensures editing.None? ==> !b
    ensures editing == Some("") ==> !b
    ensures editing.Some? && editing.value != [] ==> b
  {
    editing.Some? && editing.value != ""
  }

  /** `data[key]`: the submitted string, or `undefined` when the form has no such value. */
  function FieldOf(data: map<string, string>, key: string): (v: Option<string>)
    ensures v.Some? <==> key in data
    ensures v.Some? ==> v.value == data[key]
  {
    if key in data then Some(data[key]) else None
  }

  /**
   * The form library's `required` rule, checked before the submit handler
   * runs: each of `keys` holds a non-empty string.
   */
  predicate FilledIn(data: map<string, string>, keys: seq<string>)
  {
    forall k :: k in keys ==> k in data && data[k] != ""
  }

  /**
   * `{...data, [listKey]: <the parsed list>}`: every submitted value as text,
   * except the list field, which is replaced by its parsed entries.
   */
  function Formatted(data: map<string, string>, listKey: string): (r: Record)
    ensures r.Keys == data.Keys + {listKey}
    ensures r[listKey].List? && r[listKey].items == ParseField(FieldOf(data, listKey))
    ensures forall k :: k in data && k != listKey ==> Matches(r, k, data[k])
  {
    FromForm(data)[listKey := List(ParseField(FieldOf(data, listKey)))]
  }

  /** `setValue(key, v)`: a string is stored, `undefined` leaves the field without a value. */
  function SetValue(form: map<string, string>, key: string, v: Option<string>): (f: map<string, string>)
    ensures FieldOf(f, key) == v
    ensures forall k :: k != key ==> FieldOf(f, k) == FieldOf(form, k)
  {
    if v.Some? then form[key := v.value] else form - {key}
  }

  /** `setValue(k, record[k])` for each of `keys` in turn; every other field keeps its value. */
  function PrefillText(form: map<string, string>, record: Record, keys: seq<string>): (f: map<string, string>)
    ensures forall k :: k in keys ==> FieldOf(f, k) == TextOf(record, k)
    ensures forall k :: k !in keys ==> FieldOf(f, k) == FieldOf(form, k)
    decreases |keys|
  {
    if keys == [] then form
    else
      assert forall k :: k in keys <==> k == keys[0] || k in keys[1..];
      PrefillText(SetValue(form, keys[0], TextOf(record, keys[0])), record, keys[1..])
  }

  /**
   * The edit handler's form filling: the text fields copied from the record,
   * then the list field joined with line feeds (`items.join('\n')`, which
   * needs the field to be an array).
   */
  function Prefill(form: map<string, string>, record: Record, textKeys: seq<string>, listKey: string): (f: map<string, string>)
    requires listKey in record && record[listKey].List?
    ensures listKey in f && f[listKey] == Join(record[listKey].items)
    ensures forall k :: k in textKeys && k != listKey ==> FieldOf(f, k) == TextOf(record, k)
    ensures forall k :: k !in textKeys && k != listKey ==> FieldOf(f, k) == FieldOf(form, k)
  {
    PrefillText(form, record, textKeys)[listKey := Join(record[listKey].items)]
  }

  /**
   * Opening a record for editing and submitting the form untouched writes
   * back the record's list and text fields unchanged, provided each list
   * entry is non-blank and free of line feeds.
   */
  lemma EditSubmitRoundTrip(form: map<string, string>, record: Record, textKeys: seq<string>, listKey: string)
    requires listKey in record && record[listKey].List?
    requires forall x :: x in record[listKey].items ==> NonBlank(x) && '\n' !in x
    ensures var r := Formatted(Prefill(form, record, textKeys, listKey), listKey);
      && r[listKey] == record[listKey]
      && forall k :: k in textKeys && k != listKey && k in record && record[k].Text? ==> r[k] == record[k]
  {
    var f := Prefill(form, record, textKeys, listKey);
    RoundTrip(record[listKey].items);
    assert FieldOf(f, listKey) == Some(Join(record[listKey].items));
  }
}
