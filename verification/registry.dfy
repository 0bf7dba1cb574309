/**
  The template registry: a record from template id to template entry, its
  lookup by an optional id, and the key and value listings. The registry is an
  association list in insertion order, the order `Object.keys` and
  `Object.values` report for ordinary (non-integer) string keys.
 */
module Registry {
  import opened Wrappers
  import opened Strings

  /** The constant part of a template's `config` the registry exposes. */
  datatype Config = Config(id: string, name: string, author: string, version: string, sections: seq<string>)

  /** A registry entry; the React component itself is not modelled. */
  datatype Template = Template(id: string, name: string, config: Config)

  type Registry = seq<(string, Template)>

  const ClassicConfig: Config :=
    Config("template-01", "Classic Portfolio", "Cofounds", "1.0.0",
           ["hero", "about", "work", "education", "skills", "projects", "certificates", "contact"])

  /** `TEMPLATES`: the single classic entry. */
  const Templates: Registry :=
    [("template-01", Template("template-01", "Classic Portfolio", ClassicConfig))]

  predicate HasKey(reg: Registry, k: string) {
    exists i :: 0 <= i < |reg| && reg[i].0 == k
  }

  /** No key occurs twice: an object literal cannot hold a key twice. */
  predicate UniqueKeys(reg: Registry) {
    forall i, j :: 0 <= i < j < |reg| ==> reg[i].0 != reg[j].0
  }

  /** The comment above `TEMPLATES` asks that every key equal its entry's id. */
  predicate WellFormed(reg: Registry) {
    && UniqueKeys(reg)
    && (forall i :: 0 <= i < |reg| ==> reg[i].1.id == reg[i].0)
  }

  /** `reg[k]`: the entry stored under `k`, or `undefined`. */
  function Lookup(reg: Registry, k: string): (r: Option<Template>)
    ensures r.None? <==> !HasKey(reg, k)
    ensures r.Some? ==> exists i :: 0 <= i < |reg| && reg[i] == (k, r.value)
  {
    if |reg| == 0 then None
    else if reg[0].0 == k then Some(reg[0].1)
    else
      assert HasKey(reg, k) <==> HasKey(reg[1..], k) by {
        if HasKey(reg, k) {
          var i :| 0 <= i < |reg| && reg[i].0 == k;
          assert reg[1..][i - 1].0 == k;
        }
      }
      Lookup(reg[1..], k)
  }

  /** `Object.keys(reg)`. */
  function Keys(reg: Registry): (r: seq<string>)
    ensures |r| == |reg|
    ensures forall i :: 0 <= i < |reg| ==> r[i] == reg[i].0
  {
    seq(|reg|, i requires 0 <= i < |reg| => reg[i].0)
  }

  /** `Object.values(reg)`. */
  function Values(reg: Registry): (r: seq<Template>)
    ensures |r| == |reg|
    ensures forall i :: 0 <= i < |reg| ==> r[i] == reg[i].1
  {
    seq(|reg|, i requires 0 <= i < |reg| => reg[i].1)
  }

  /** In a registry without duplicate keys, the entry found under a key is the one stored at its position. */
  lemma {:induction false} LookupAt(reg: Registry, i: nat)
    requires UniqueKeys(reg)
    requires i < |reg|
    ensures Lookup(reg, reg[i].0) == Some(reg[i].1)
    decreases i
  {
    if i > 0 {
      assert reg[0].0 != reg[i].0;
      assert reg[1..][i - 1] == reg[i];
      LookupAt(reg[1..], i - 1);
    }
  }

  /**
    The key listing and the value listing enumerate the same entries: equal
    length, and the i-th value is what a lookup of the i-th key returns.
   */
  lemma KeysValuesAgree(reg: Registry)
    requires UniqueKeys(reg)
    ensures |Keys(reg)| == |Values(reg)|
    ensures forall i :: 0 <= i < |reg| ==> Lookup(reg, Keys(reg)[i]) == Some(Values(reg)[i])
  {
    forall i | 0 <= i < |reg|
      ensures Lookup(reg, Keys(reg)[i]) == Some(Values(reg)[i])
    {
      LookupAt(reg, i);
    }
  }

  /** The registry itself keeps its documented invariant. */
  lemma TemplatesWellFormed()
    ensures WellFormed(Templates)
    ensures |Templates| == 1
  {
  }

  /** `getTemplate(templateId)`: `undefined` for a missing or empty id, else the registry entry (possibly `undefined`). */
  function GetTemplate(templateId: Option<string>): (r: Option<Template>)
    ensures !Present(templateId) ==> r.None?
    ensures Present(templateId) ==> (r.Some? <==> TemplateExists(templateId.value))
    ensures r.Some? ==> r.value.id == templateId.value && r.value in Values(Templates)
  {
    if !Present(templateId) then None
    else
      var r := Lookup(Templates, templateId.value);
      assert r.Some? ==> r.value.id == templateId.value by {
        TemplatesWellFormed();
      }
      r
  }

  /** `getAvailableTemplateIds()`. */
  function GetAvailableTemplateIds(): (r: seq<string>)
    ensures forall k :: k in r <==> TemplateExists(k)
    ensures |r| == |Templates|
  {
    Keys(Templates)
  }

  /** `templateId in TEMPLATES`. */
  predicate TemplateExists(templateId: string) {
    HasKey(Templates, templateId)
  }

  /** `getAllTemplates()`. */
  function GetAllTemplates(): (r: seq<Template>)
    ensures |r| == |GetAvailableTemplateIds()|
    ensures forall i :: 0 <= i < |r| ==> GetTemplate(Some(GetAvailableTemplateIds()[i])) == Some(r[i])
  {
    TemplatesWellFormed();
    KeysValuesAgree(Templates);
    Values(Templates)
  }

  /** The one registered id resolves to the classic entry, whose config carries the same id and name. */
  lemma ClassicTemplate()
    ensures GetTemplate(Some("template-01")).Some?
    ensures GetTemplate(Some("template-01")).value.name == "Classic Portfolio"
    ensures GetTemplate(Some("template-01")).value.config.id == "template-01"
    ensures GetTemplate(Some("template-01")).value.config.name == "Classic Portfolio"
  {
    assert Templates[0].0 == "template-01";
  }
}
