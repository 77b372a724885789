/**
 * `DomainProvider` of `app/contexts/DomainContext.tsx`: the three chat
 * domains, the selected one restored from storage on mount and saved
 * whenever it changes. Stored values are JSON texts; `Stored` says what
 * `JSON.parse` makes of one.
 */
module DomainContext {
  import opened Js

  datatype Domain = Domain(value: string, caption: string, webhookUrl: string)

  const Domains: seq<Domain> := [
    Domain("general", "GENERAL", "https://n8n.afrainity.com/webhook/general"),
    Domain("zesa", "ZESA", "https://n8n.afrainity.com/webhook/zesa"),
    Domain("praz", "PRAZ", "https://n8n.afrainity.com/webhook/praz")
  ]

  const StorageKey := "selectedDomain"

  /** A stored text: the JSON value it parses to, or a text `JSON.parse` rejects (the empty text among them). */
  datatype Stored = JsonText(json: Json) | NotJson

  /** Three domains with distinct values; the first, the initial selection, is "general". */
  lemma DomainValuesDistinct()
    ensures |Domains| == 3 && Domains[0].value == "general"
    ensures forall i, j :: 0 <= i < j < |Domains| ==> Domains[i].value != Domains[j].value
  {
  }

  /** `domains.find(d => d.value === value)` */
  function FindDomain(value: string): (r: Option<Domain>)
    ensures r.Some? <==> exists i :: 0 <= i < |Domains| && Domains[i].value == value
    ensures r.Some? ==> r.value in Domains && r.value.value == value
  {
    if Domains[0].value == value then Some(Domains[0])
    else if Domains[1].value == value then Some(Domains[1])
    else if Domains[2].value == value then Some(Domains[2])
    else None
  }

  /** A property of a parsed object; the last entry of a repeated key wins, as in `JSON.parse`. */
  function Property(entries: seq<(string, Json)>, key: string): (r: Option<Json>)
    ensures r.Some? <==> exists i :: 0 <= i < |entries| && entries[i].0 == key
    ensures r.Some? ==> exists i :: 0 <= i < |entries| && entries[i] == (key, r.value)
  {
    if entries == [] then None
    else if entries[|entries| - 1].0 == key then Some(entries[|entries| - 1].1)
    else
      var r := Property(entries[..|entries| - 1], key);
      assert forall i :: 0 <= i < |entries| - 1 ==> entries[..|entries| - 1][i] == entries[i];
      r
  }

  /**
   * The value `parsedDomain.value` compares with, when it is a string: only
   * an object with a string `value` can name a domain. (`null` makes the
   * access throw; on other values it is `undefined`.)
   */
  function ValueField(j: Json): Option<string>
  {
    match j
    case JObj(entries) =>
      var v := Property(entries, "value");
      if v.Some? && v.value.JStr? then Some(v.value.s) else None
    case _ => None
  }

  /** The string `value` of the stored object, if the stored text parses to one. */
  function StoredValue(stored: Option<Stored>): Option<string>
  {
    if stored.Some? && stored.value.JsonText? then ValueField(stored.value.json) else None
  }

  /**
   * The mount effect: the selection after reading `stored` (`None` when
   * nothing is stored). Only a stored object whose `value` names a listed
   * domain changes it.
   */
  function Restore(selected: Domain, stored: Option<Stored>): (r: Domain)
    ensures StoredValue(stored).Some? && FindDomain(StoredValue(stored).value).Some? ==>
      r in Domains && r.value == StoredValue(stored).value
    ensures !(StoredValue(stored).Some? && FindDomain(StoredValue(stored).value).Some?) ==>
      r == selected
  {
    if stored.None? || stored.value.NotJson? then selected
    else
      var v := ValueField(stored.value.json);
      if v.None? then selected
      else
        var found := FindDomain(v.value);
        if found.Some? then found.value else selected
  }

  /** `JSON.stringify(selectedDomain)`, as the JSON value it writes. */
  function Encode(d: Domain): Json
  {
    JObj([("value", JStr(d.value)), ("label", JStr(d.caption)), ("webhookUrl", JStr(d.webhookUrl))])
  }

  /** In a three-entry object whose first key alone is `key`, the property is the first value. */
  lemma PropertyOfFirst(a: (string, Json), b: (string, Json), c: (string, Json), key: string)
    requires a.0 == key && b.0 != key && c.0 != key
    ensures Property([a, b, c], key) == Some(a.1)
  {
    assert [a, b, c][..2] == [a, b];
    assert [a, b][..1] == [a];
    assert [a][..0] == [];
    assert Property([a], key) == Some(a.1);
    assert Property([a, b], key) == Property([a], key);
  }

  /** Saving a listed domain and restoring it, from any selection, selects that domain. */
  lemma SaveThenRestore(d: Domain, selected: Domain)
    requires d in Domains
    ensures Restore(selected, Some(JsonText(Encode(d)))) == d
  {
    assert "label"[0] != "value"[0];
    assert |"webhookUrl"| != |"value"|;
    PropertyOfFirst(("value", JStr(d.value)), ("label", JStr(d.caption)), ("webhookUrl", JStr(d.webhookUrl)), "value");
    assert ValueField(Encode(d)) == Some(d.value);
  }

  class DomainProvider {
    var selectedDomain: Domain
    /** The part of `localStorage` the provider uses. */
    var storage: map<string, Stored>

    /** The selection is a listed domain. */
    predicate Valid()
      reads this
    {
      selectedDomain in Domains
    }

    constructor (storage: map<string, Stored>)
      ensures selectedDomain == Domains[0] && this.storage == storage
      ensures Valid()
    {
      selectedDomain := Domains[0];
      this.storage := storage;
    }

    /** The mount effect. */
    method Mount()
      requires Valid()
      modifies this`selectedDomain
      ensures selectedDomain == Restore(old(selectedDomain), if StorageKey in storage then Some(storage[StorageKey]) else None)
      ensures Valid()
    {
      var stored := if StorageKey in storage then Some(storage[StorageKey]) else None;
      selectedDomain := Restore(selectedDomain, stored);
    }

    /** The save effect, run whenever the selection changes. */
    method Save()
      modifies this`storage
      ensures storage == old(storage)[StorageKey := JsonText(Encode(selectedDomain))]
    {
      storage := storage[StorageKey := JsonText(Encode(selectedDomain))];
    }

    /** `setSelectedDomain`; the domain picker passes a listed domain. */
    method SetSelectedDomain(d: Domain)
      modifies this`selectedDomain
      ensures selectedDomain == d
      ensures d in Domains ==> Valid()
    {
      selectedDomain := d;
    }
  }
}
