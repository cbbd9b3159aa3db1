/**
 * "First definition wins" over a template walk: several constructors scan
 * the documents of getAllNodes in order and keep the first value each field
 * of a section is given, ignoring later ones.
 */
module Sections {
  import opened Wrappers
  import opened Json

  /** The "server" section of a vanilla template: version and description, each null until some document gives it. */
  datatype ServerSection = ServerSection(version: Option<string>, description: Option<string>)

  /** The field `key` of node n's `section` object, when both are present. */
  function SectionField(n: Json, section: string, key: string): Option<Json> {
    match Get(n, section)
    case None => None
    case Some(s) => Get(s, key)
  }

  /**
   * The text of section.key in the first node of the walk that sets it, or
   * null: the value a `if (field == null && node.has(key))` loop ends with.
   */
  function FirstText(nodes: seq<Json>, section: string, key: string): Option<string> {
    if nodes == [] then None
    else
      var prev := FirstText(nodes[..|nodes| - 1], section, key);
      if prev.Some? then prev
      else
        match SectionField(nodes[|nodes| - 1], section, key)
        case Some(v) => Some(AsText(v))
        case None => None
  }

  /** Node i is the first of the walk that sets section.key. */
  predicate FirstSetAt(nodes: seq<Json>, i: nat, section: string, key: string)
    requires i < |nodes|
  {
    SectionField(nodes[i], section, key).Some? &&
    forall k :: 0 <= k < i ==> SectionField(nodes[k], section, key).None?
  }

  /**
   * The kept value is null exactly when no node sets the field; otherwise
   * it is the text the first setting node gives.
   */
  lemma {:induction false} FirstTextIsFirst(nodes: seq<Json>, section: string, key: string)
    ensures FirstText(nodes, section, key).None? <==>
      forall k :: 0 <= k < |nodes| ==> SectionField(nodes[k], section, key).None?
    ensures FirstText(nodes, section, key).Some? ==>
      exists i :: 0 <= i < |nodes| && FirstSetAt(nodes, i, section, key) &&
        FirstText(nodes, section, key) == Some(AsText(SectionField(nodes[i], section, key).value))
  {
    if nodes != [] {
      var front := nodes[..|nodes| - 1];
      FirstTextIsFirst(front, section, key);
      assert forall k :: 0 <= k < |front| ==> front[k] == nodes[k];
      if FirstText(front, section, key).Some? {
        var i :| 0 <= i < |front| && FirstSetAt(front, i, section, key) &&
          FirstText(front, section, key) == Some(AsText(SectionField(front[i], section, key).value));
        assert FirstSetAt(nodes, i, section, key);
      } else if SectionField(nodes[|nodes| - 1], section, key).Some? {
        assert FirstSetAt(nodes, |nodes| - 1, section, key);
      }
    }
  }

  /** The walk's first node is the template's own document, so its value wins over every ancestor's. */
  lemma OwnValueWins(nodes: seq<Json>, section: string, key: string)
    requires |nodes| > 0 && SectionField(nodes[0], section, key).Some?
    ensures FirstText(nodes, section, key) == Some(AsText(SectionField(nodes[0], section, key).value))
  {
    FirstTextIsFirst(nodes, section, key);
    var i :| 0 <= i < |nodes| && FirstSetAt(nodes, i, section, key) &&
      FirstText(nodes, section, key) == Some(AsText(SectionField(nodes[i], section, key).value));
    assert i == 0;
  }

  /** Once a prefix of the walk has given the field a value, the rest of the walk changes nothing. */
  lemma {:induction false} FirstTextPrefix(nodes: seq<Json>, prefix: seq<Json>, section: string, key: string)
    requires prefix <= nodes && FirstText(prefix, section, key).Some?
    ensures FirstText(nodes, section, key) == FirstText(prefix, section, key)
    decreases |nodes|
  {
    if |nodes| > |prefix| {
      var front := nodes[..|nodes| - 1];
      assert prefix <= front;
      FirstTextPrefix(front, prefix, section, key);
    } else {
      assert prefix == nodes;
    }
  }

  /** A first node that does not set the field is passed over. */
  lemma {:induction false} FirstTextSkipUnset(n: Json, rest: seq<Json>, section: string, key: string)
    requires SectionField(n, section, key).None?
    ensures FirstText([n] + rest, section, key) == FirstText(rest, section, key)
    decreases |rest|
  {
    if rest == [] {
      assert ([n] + rest)[..0] == [];
    } else {
      var front := rest[..|rest| - 1];
      assert ([n] + rest)[..|[n] + rest| - 1] == [n] + front;
      FirstTextSkipUnset(n, front, section, key);
    }
  }

  /**
   * The loop the constructors share, for one field: scanning the walk in
   * order, a field still null takes the first value offered.
   */
  method ScanFirst(nodes: seq<Json>, section: string, key: string) returns (value: Option<string>)
    ensures value == FirstText(nodes, section, key)
  {
    value := None;
    var i := 0;
    while i < |nodes|
      invariant i <= |nodes|
      invariant value == FirstText(nodes[..i], section, key)
      decreases |nodes| - i
    {
      assert nodes[..i + 1][..i] == nodes[..i];
      if Has(nodes[i], section) {
        var sectionNode := Get(nodes[i], section).value;
        if value.None? && Has(sectionNode, key) {
          value := Some(AsText(Get(sectionNode, key).value));
        }
      }
      i := i + 1;
    }
    assert nodes[..i] == nodes;
  }
}
