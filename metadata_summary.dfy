/**
 * The metadata summariser of the MCP function app: it turns the parsed
 * OData CSDL document (OData Version 4.01 CSDL XML, section 6 Entity Type
 * and Key, section 7 Structural Property, section 8 Navigation Property,
 * section 13 Entity Container and Entity Set) into the tool description
 * text handed to the language model.
 *
 * The XML itself is not modelled: the document arrives already parsed, as
 * the values below, and a text XDocument.Parse rejects is `Malformed`.
 */
module MetadataSummary {
  import opened Wrappers
  import opened Strings

  /** The Name attribute of an element; `None` when the attribute is absent. */
  type Name = Option<string>

  /**
   * An `<EntityType>`: its Name, the PropertyRef names under each of its
   * `<Key>` elements, and the names of its `<Property>` and
   * `<NavigationProperty>` elements, all in document order.
   */
  datatype EntityType = EntityType(
    name: Name,
    keys: seq<seq<Name>>,
    properties: seq<Name>,
    navigationProperties: seq<Name>)

  /** An `<EntitySet>`: its Name and its (qualified) EntityType attribute. */
  datatype EntitySet = EntitySet(name: Name, entityType: Option<string>)

  datatype EntityContainer = EntityContainer(entitySets: seq<EntitySet>)

  /**
   * The first `<Schema>` of the document: its first `<EntityContainer>`,
   * if it has one, and every `<EntityType>` under it.
   */
  datatype Schema = Schema(container: Option<EntityContainer>, entityTypes: seq<EntityType>)

  /** The metadata text as XDocument.Parse leaves it: rejected, or a document with or without a Schema. */
  datatype MetadataDocument = Malformed | Document(schema: Option<Schema>)

  /** StringBuilder.AppendLine writes the line and then a newline. */
  const NewLine := "\n"

  function Line(s: string): string {
    s + NewLine
  }

  const Intro := "An MCP tool that retrieves data from the database using OData queries."
  const EntitySetsHeading := "## Available Entity Sets"
  const CoreHeading := "### Core Entities"
  const ViewsHeading := "### Views"
  const KeyPrefix := "   - Key: "
  const PropertiesPrefix := "   - Properties: "
  const NavigationPrefix := "   - Navigation: "
  const ListSeparator := ", "

  /** At most this many non-key properties are listed per entity set. */
  const MaxListedProperties := 10

  /** The lines every summary of a document with a schema opens with. */
  const Header := Line(Intro) + NewLine + Line(EntitySetsHeading) + NewLine

  /** The lines every such summary closes with. */
  const Footer := NewLine + Line(QueryCapabilities)

  /**
   * The static "OData Query Capabilities" section appended to every
   * summary. Only its opening lines are kept here; the list of query
   * options and examples that follows them is documentation the model
   * does not reason about.
   */
  const QueryCapabilities: string :=
    "## OData Query Capabilities\n\nThe API supports the following OData query options (max top: 100):\n"

  /**
   * The static description returned whenever no summary can be built. It
   * opens with the same lines as a built summary; only those and the
   * sentence after them are kept here, not the fixed list of fifteen entity
   * sets and the query guide that follow.
   */
  const FallbackDescription: string :=
    Header + "The OData API exposes the following entity sets that can be queried:\n"

  // ---------------------------------------------------------------------
  // Grouping the entity sets
  // ---------------------------------------------------------------------

  function EntitySets(schema: Schema): seq<EntitySet> {
    match schema.container
    case None => []
    case Some(c) => c.entitySets
  }

  /** A view is an entity set whose name starts with 'V'; a missing name counts as "". */
  predicate IsView(es: EntitySet) {
    StartsWith(es.name.GetOr(""), "V")
  }

  /** The entity sets that are views (`views`) or core entities (`!views`), in document order. */
  function Group(sets: seq<EntitySet>, views: bool): (g: seq<EntitySet>)
    ensures |g| <= |sets|
    ensures forall k :: 0 <= k < |g| ==> g[k] in sets && IsView(g[k]) == views
  {
    if |sets| == 0 then []
    else
      var g0 := Group(sets[..|sets| - 1], views);
      if IsView(sets[|sets| - 1]) == views then g0 + [sets[|sets| - 1]] else g0
  }

  /** Grouping commutes with concatenation: document order is kept in each group. */
  lemma {:induction false} GroupKeepsOrder(a: seq<EntitySet>, b: seq<EntitySet>, views: bool)
    ensures Group(a + b, views) == Group(a, views) + Group(b, views)
    decreases |b|
  {
    if |b| == 0 {
      assert a + b == a;
    } else {
      var b0 := b[..|b| - 1];
      assert (a + b)[..|a + b| - 1] == a + b0;
      assert b[..|b| - 1] == b0;
      GroupKeepsOrder(a, b0, views);
    }
  }

  /** Every entity set lands in exactly one of the two groups. */
  lemma {:induction false} GroupsPartition(sets: seq<EntitySet>)
    ensures multiset(Group(sets, false)) + multiset(Group(sets, true)) == multiset(sets)
    decreases |sets|
  {
    if |sets| > 0 {
      var s0 := sets[..|sets| - 1];
      GroupsPartition(s0);
      assert sets == s0 + [sets[|sets| - 1]];
    }
  }

  /** An entity set is in a group exactly when it is in the document and has that group's kind. */
  lemma {:induction false} GroupMembership(sets: seq<EntitySet>, views: bool, es: EntitySet)
    ensures es in Group(sets, views) <==> es in sets && IsView(es) == views
    decreases |sets|
  {
    if |sets| > 0 {
      var s0 := sets[..|sets| - 1];
      GroupMembership(s0, views, es);
      assert sets == s0 + [sets[|sets| - 1]];
    }
  }

  // ---------------------------------------------------------------------
  // Keys, properties and navigation properties of one entity type
  // ---------------------------------------------------------------------

  /** The names that are present, in order: `.Where(n => n != null)`. */
  function Present(xs: seq<Name>): (r: seq<string>)
    ensures |r| <= |xs|
    ensures forall n :: n in r <==> Some(n) in xs
  {
    if |xs| == 0 then []
    else
      assert xs == [xs[0]] + xs[1..];
      (if xs[0].Some? then [xs[0].value] else []) + Present(xs[1..])
  }

  /**
   * Dropping the missing names keeps the order of the others: it works
   * piece by piece, a name by itself is kept and a missing one is dropped.
   */
  lemma {:induction false} PresentAppend(a: seq<Name>, b: seq<Name>)
    ensures Present(a + b) == Present(a) + Present(b)
    ensures forall n :: Present([Some(n)]) == [n]
    ensures Present([None]) == []
    decreases |a|
  {
    if |a| == 0 {
      assert a + b == b;
    } else {
      assert (a + b)[0] == a[0];
      assert (a + b)[1..] == a[1..] + b;
      PresentAppend(a[1..], b);
    }
  }

  /** The PropertyRef names of all Key elements, one after another: `SelectMany`. */
  function Flatten(xss: seq<seq<Name>>): seq<Name> {
    if |xss| == 0 then [] else xss[0] + Flatten(xss[1..])
  }

  lemma {:induction false} FlattenMembers(xss: seq<seq<Name>>, x: Name)
    ensures x in Flatten(xss) <==> exists k :: 0 <= k < |xss| && x in xss[k]
    decreases |xss|
  {
    if |xss| > 0 {
      FlattenMembers(xss[1..], x);
      if x in Flatten(xss[1..]) {
        var k :| 0 <= k < |xss[1..]| && x in xss[1..][k];
        assert x in xss[k + 1];
      }
      forall k | 0 <= k < |xss| && x in xss[k] ensures x in Flatten(xss) {
        if k > 0 { assert x in xss[1..][k - 1]; }
      }
    }
  }

  /** The PropertyRef lists are flattened Key by Key, in document order. */
  lemma {:induction false} FlattenAppend(a: seq<seq<Name>>, b: seq<seq<Name>>)
    ensures Flatten(a + b) == Flatten(a) + Flatten(b)
    ensures forall xs :: Flatten([xs]) == xs
    decreases |a|
  {
    if |a| == 0 {
      assert a + b == b;
    } else {
      assert (a + b)[0] == a[0];
      assert (a + b)[1..] == a[1..] + b;
      FlattenAppend(a[1..], b);
    }
    forall xs ensures Flatten([xs]) == xs {
      assert [xs][1..] == [];
    }
  }

  function KeyNames(t: EntityType): seq<string> {
    Present(Flatten(t.keys))
  }

  /** A key name is one some PropertyRef under some Key names. */
  lemma KeyNamesMembers(t: EntityType, n: string)
    ensures n in KeyNames(t) <==> exists k :: 0 <= k < |t.keys| && Some(n) in t.keys[k]
  {
    FlattenMembers(t.keys, Some(n));
  }

  /**
   * The key names come Key by Key in document order: the names of the
   * first Keys, then those of the rest, each Key's PropertyRefs in order.
   */
  lemma KeyNamesInOrder(a: seq<seq<Name>>, b: seq<seq<Name>>)
    ensures Present(Flatten(a + b)) == Present(Flatten(a)) + Present(Flatten(b))
    ensures forall refs :: Present(Flatten([refs])) == Present(refs)
  {
    FlattenAppend(a, b);
    PresentAppend(Flatten(a), Flatten(b));
  }

  /** A property whose name is not a key name; a property without a name is kept. */
  predicate IsNonKey(p: Name, keys: seq<string>) {
    p.None? || p.value !in keys
  }

  /** `.Where(p => !keys.Contains(p.Name))`. */
  function NonKey(props: seq<Name>, keys: seq<string>): (r: seq<Name>)
    ensures |r| <= |props|
    ensures forall k :: 0 <= k < |r| ==> r[k] in props && IsNonKey(r[k], keys)
    ensures forall k :: 0 <= k < |props| && IsNonKey(props[k], keys) ==> props[k] in r
  {
    if |props| == 0 then []
    else
      assert forall k :: 1 <= k < |props| ==> props[k] == props[1..][k - 1];
      (if IsNonKey(props[0], keys) then [props[0]] else []) + NonKey(props[1..], keys)
  }

  /**
   * The filter keeps document order: it works piece by piece, keeps a
   * property by itself exactly when it is not a key (an unnamed one
   * included) and drops it otherwise.
   */
  lemma {:induction false} NonKeyAppend(a: seq<Name>, b: seq<Name>, keys: seq<string>)
    ensures NonKey(a + b, keys) == NonKey(a, keys) + NonKey(b, keys)
    decreases |a|
  {
    if |a| == 0 {
      assert a + b == b;
    } else {
      var ab := a + b;
      assert ab[0] == a[0];
      assert ab[1..] == a[1..] + b;
      NonKeyAppend(a[1..], b, keys);
      var head := if IsNonKey(a[0], keys) then [a[0]] else [];
      var x, y := NonKey(a[1..], keys), NonKey(b, keys);
      assert NonKey(ab, keys) == head + (x + y);
      assert NonKey(a, keys) == head + x;
      assert head + (x + y) == (head + x) + y;
    }
  }

  /** One property by itself is kept exactly when it is not a key. */
  lemma NonKeySingle(p: Name, keys: seq<string>)
    ensures NonKey([p], keys) == if IsNonKey(p, keys) then [p] else []
  {
    assert [p][1..] == [];
  }

  /** `.Take(n)`: the first n entries, or all of them when there are fewer. */
  function Take(xs: seq<Name>, n: nat): (r: seq<Name>)
    ensures |r| == if |xs| <= n then |xs| else n
    ensures forall k :: 0 <= k < |r| ==> r[k] == xs[k]
  {
    if |xs| <= n then xs else xs[..n]
  }

  /** The listed properties: non-key ones, the first ten of them, then the unnamed ones dropped. */
  function ListedProperties(t: EntityType): seq<string> {
    Present(Take(NonKey(t.properties, KeyNames(t)), MaxListedProperties))
  }

  function NavigationNames(t: EntityType): seq<string> {
    Present(t.navigationProperties)
  }

  /**
   * The navigation names keep document order: splitting the declarations
   * anywhere splits the names there, and when every declaration is named
   * the k-th name is that of the k-th NavigationProperty.
   */
  lemma NavigationNamesInOrder(t: EntityType, a: seq<Name>, b: seq<Name>)
    requires t.navigationProperties == a + b
    ensures NavigationNames(t) == Present(a) + Present(b)
    ensures (forall k :: 0 <= k < |t.navigationProperties| ==> t.navigationProperties[k].Some?) ==>
      && |NavigationNames(t)| == |t.navigationProperties|
      && forall k :: 0 <= k < |t.navigationProperties| ==> NavigationNames(t)[k] == t.navigationProperties[k].value
  {
    PresentAppend(a, b);
    if forall k :: 0 <= k < |t.navigationProperties| ==> t.navigationProperties[k].Some? {
      PresentAllNamed(t.navigationProperties);
    }
  }

  /** At most ten properties are listed, each a named property of the type that is not a key. */
  lemma ListedPropertiesBounded(t: EntityType)
    ensures |ListedProperties(t)| <= MaxListedProperties
    ensures forall n :: n in ListedProperties(t) ==> Some(n) in t.properties && n !in KeyNames(t)
  {
    var nk := NonKey(t.properties, KeyNames(t));
    var taken := Take(nk, MaxListedProperties);
    forall n | n in ListedProperties(t)
      ensures Some(n) in t.properties && n !in KeyNames(t)
    {
      assert Some(n) in taken;
      var k :| 0 <= k < |taken| && taken[k] == Some(n);
      assert taken[k] == nk[k];
    }
  }

  lemma {:induction false} NonKeyAllKept(props: seq<Name>, keys: seq<string>)
    requires forall k :: 0 <= k < |props| ==> IsNonKey(props[k], keys)
    ensures NonKey(props, keys) == props
    decreases |props|
  {
    if |props| > 0 {
      NonKeyAllKept(props[1..], keys);
      assert props == [props[0]] + props[1..];
    }
  }

  lemma {:induction false} PresentAllNamed(xs: seq<Name>)
    requires forall k :: 0 <= k < |xs| ==> xs[k].Some?
    ensures |Present(xs)| == |xs|
    ensures forall k :: 0 <= k < |xs| ==> Present(xs)[k] == xs[k].value
    decreases |xs|
  {
    if |xs| > 0 {
      PresentAllNamed(xs[1..]);
    }
  }

  /**
   * When every property is named, the listing is the names of the first
   * ten non-key properties in document order (all of them when there are
   * fewer), keys excluded.
   */
  lemma ListsFirstTenInOrder(t: EntityType)
    requires forall k :: 0 <= k < |t.properties| ==> t.properties[k].Some?
    ensures var nonKey := NonKey(t.properties, KeyNames(t));
      && |ListedProperties(t)| == (if |nonKey| < MaxListedProperties then |nonKey| else MaxListedProperties)
      && forall k :: 0 <= k < |ListedProperties(t)| ==> Some(ListedProperties(t)[k]) == nonKey[k]
  {
    var nonKey := NonKey(t.properties, KeyNames(t));
    var taken := Take(nonKey, MaxListedProperties);
    forall k | 0 <= k < |taken| ensures taken[k].Some? {
      assert taken[k] == nonKey[k];
      assert nonKey[k] in t.properties;
    }
    PresentAllNamed(taken);
  }

  /**
   * A type whose first property is its key, as in a CSDL type with
   * `<Key><PropertyRef Name="Id"/></Key><Property Name="Id"/>...`, lists
   * the names of the properties after it, at most ten, in document order.
   */
  lemma KeyPropertyNotListed(t: EntityType)
    requires |t.properties| > 0 && t.properties[0].Some? && t.properties[0].value in KeyNames(t)
    requires forall k :: 1 <= k < |t.properties| ==> t.properties[k].Some? && t.properties[k].value !in KeyNames(t)
    ensures |ListedProperties(t)| == if |t.properties| - 1 < MaxListedProperties then |t.properties| - 1 else MaxListedProperties
    ensures forall k :: 0 <= k < |ListedProperties(t)| ==> ListedProperties(t)[k] == t.properties[k + 1].value
  {
    NonKeyDropsLeadingKey(t.properties, KeyNames(t));
    ListsFirstTenInOrder(t);
  }

  lemma NonKeyDropsLeadingKey(props: seq<Name>, keys: seq<string>)
    requires |props| > 0 && !IsNonKey(props[0], keys)
    requires forall k :: 1 <= k < |props| ==> IsNonKey(props[k], keys)
    ensures NonKey(props, keys) == props[1..]
  {
    var rest := props[1..];
    assert props == [props[0]] + rest;
    NonKeyAppend([props[0]], rest, keys);
    NonKeySingle(props[0], keys);
    assert forall k :: 0 <= k < |rest| ==> rest[k] == props[k + 1];
    NonKeyAllKept(rest, keys);
  }

  lemma {:induction false} PresentAllUnnamed(xs: seq<Name>)
    requires forall k :: 0 <= k < |xs| ==> xs[k].None?
    ensures Present(xs) == []
    decreases |xs|
  {
    if |xs| > 0 {
      PresentAllUnnamed(xs[1..]);
    }
  }

  /**
   * The limit of ten is applied before the unnamed properties are dropped:
   * ten unnamed non-key properties in front hide every later one.
   */
  lemma UnnamedPropertiesUseUpTheLimit(t: EntityType)
    requires |NonKey(t.properties, KeyNames(t))| >= MaxListedProperties
    requires forall k :: 0 <= k < MaxListedProperties ==> NonKey(t.properties, KeyNames(t))[k].None?
    ensures ListedProperties(t) == []
  {
    PresentAllUnnamed(Take(NonKey(t.properties, KeyNames(t)), MaxListedProperties));
  }

  // ---------------------------------------------------------------------
  // One entity set's paragraph
  // ---------------------------------------------------------------------

  /** The type name an entity set refers to: its EntityType attribute after the last '.'. */
  function EntityTypeName(es: EntitySet): Option<string> {
    match es.entityType
    case None => None
    case Some(qualified) => Some(AfterLast(qualified, '.'))
  }

  /** The referenced type name is the unqualified tail of the EntityType attribute. */
  lemma EntityTypeNameUnqualified(es: EntitySet)
    requires es.entityType.Some?
    ensures '.' !in EntityTypeName(es).value
    ensures EndsWith(es.entityType.value, EntityTypeName(es).value)
  {
    AfterLastIsSuffix(es.entityType.value, '.');
  }

  /** Index of the first entity type with the given name, or |types| when there is none. */
  function FirstTypeNamed(types: seq<EntityType>, name: string): (i: nat)
    ensures i <= |types|
    ensures i < |types| ==> types[i].name == Some(name)
    ensures forall j :: 0 <= j < i ==> types[j].name != Some(name)
  {
    if |types| == 0 then 0
    else if types[0].name == Some(name) then 0
    else 1 + FirstTypeNamed(types[1..], name)
  }

  /** `FirstOrDefault(e => e.Name == name)` over the schema's entity types. */
  function FindEntityType(types: seq<EntityType>, name: string): (r: Option<EntityType>)
    ensures r.Some? ==> r.value in types && r.value.name == Some(name)
    ensures r.None? ==> forall k :: 0 <= k < |types| ==> types[k].name != Some(name)
  {
    var i := FirstTypeNamed(types, name);
    if i < |types| then Some(types[i]) else None
  }

  /** An entity set is skipped when its name or its referenced type name is missing or empty. */
  predicate IsSkipped(es: EntitySet) {
    es.name.None? || es.name.value == "" || EntityTypeName(es).None? || EntityTypeName(es).value == ""
  }

  /** `   - Key: k1, k2`, present only when the type has a key name. */
  function KeyLine(t: EntityType): string {
    var keys := KeyNames(t);
    if |keys| > 0 then Line(KeyPrefix + Join(ListSeparator, keys)) else ""
  }

  /** `   - Properties: p1, p2`, present only when some property is listed. */
  function PropertiesLine(t: EntityType): string {
    var props := ListedProperties(t);
    if |props| > 0 then Line(PropertiesPrefix + Join(ListSeparator, props)) else ""
  }

  /** `   - Navigation: n1, n2`, present only when the type has a named navigation property. */
  function NavigationLine(t: EntityType): string {
    var navs := NavigationNames(t);
    if |navs| > 0 then Line(NavigationPrefix + Join(ListSeparator, navs)) else ""
  }

  /** The key, property and navigation lines of a resolved entity type. */
  function TypeDetails(t: EntityType): string {
    KeyLine(t) + PropertiesLine(t) + NavigationLine(t)
  }

  function NameLine(name: string): string {
    Line("**" + name + "**")
  }

  /** What AppendEntitySetDescription adds for one entity set. */
  function EntitySetParagraph(es: EntitySet, types: seq<EntityType>): string {
    if IsSkipped(es) then ""
    else
      var details := match FindEntityType(types, EntityTypeName(es).value)
        case None => ""
        case Some(t) => TypeDetails(t);
      NameLine(es.name.value) + details + NewLine
  }

  /** The key line comes first in a type's details, and it is there exactly when the type has a key name. */
  lemma KeyLineIffKeys(t: EntityType)
    ensures StartsWith(TypeDetails(t), KeyPrefix) <==> |KeyNames(t)| > 0
  {
    if |KeyNames(t)| == 0 {
      var d := TypeDetails(t);
      assert d == PropertiesLine(t) + NavigationLine(t);
      assert |d| > 5 ==> d[5] != KeyPrefix[5];
    }
  }

  /**
   * A paragraph either is empty (the set is skipped) or consists of the
   * bold name line, the type's details (none when no type has the
   * referenced name) and a blank line.
   */
  lemma ParagraphShape(es: EntitySet, types: seq<EntityType>)
    ensures IsSkipped(es) <==> EntitySetParagraph(es, types) == ""
    ensures !IsSkipped(es) && FindEntityType(types, EntityTypeName(es).value).None? ==>
      EntitySetParagraph(es, types) == NameLine(es.name.value) + NewLine
    ensures !IsSkipped(es) ==>
      StartsWith(EntitySetParagraph(es, types), NameLine(es.name.value)) &&
      EndsWith(EntitySetParagraph(es, types), NewLine)
  {
    if !IsSkipped(es) {
      var p := EntitySetParagraph(es, types);
      assert |p| > 0;
      var details := match FindEntityType(types, EntityTypeName(es).value)
        case None => ""
        case Some(t) => TypeDetails(t);
      assert p == NameLine(es.name.value) + (details + NewLine);
    }
  }

  /** The paragraphs of a group, in order. */
  function Paragraphs(sets: seq<EntitySet>, types: seq<EntityType>): string {
    if |sets| == 0 then ""
    else Paragraphs(sets[..|sets| - 1], types) + EntitySetParagraph(sets[|sets| - 1], types)
  }

  lemma {:induction false} ParagraphsAppend(a: seq<EntitySet>, b: seq<EntitySet>, types: seq<EntityType>)
    ensures Paragraphs(a + b, types) == Paragraphs(a, types) + Paragraphs(b, types)
    decreases |b|
  {
    if |b| == 0 {
      assert a + b == a;
    } else {
      var b0 := b[..|b| - 1];
      assert (a + b)[..|a + b| - 1] == a + b0;
      ParagraphsAppend(a, b0, types);
    }
  }

  /** A group's heading and paragraphs; nothing at all for an empty group. */
  function Section(heading: string, sets: seq<EntitySet>, types: seq<EntityType>): string {
    if |sets| == 0 then "" else Line(heading) + NewLine + Paragraphs(sets, types)
  }

  /** The summary of the document; the fallback text when it is malformed or has no schema. */
  function Describe(doc: MetadataDocument): (r: string)
    ensures doc.Malformed? || doc.schema.None? ==> r == FallbackDescription
    ensures doc.Document? && doc.schema.Some? ==> StartsWith(r, Header) && EndsWith(r, Footer)
  {
    match doc
    case Malformed => FallbackDescription
    case Document(None) => FallbackDescription
    case Document(Some(schema)) =>
      var sets := EntitySets(schema);
      var middle := Section(CoreHeading, Group(sets, false), schema.entityTypes)
        + Section(ViewsHeading, Group(sets, true), schema.entityTypes);
      var r := Header + middle + Footer;
      assert r[..|Header|] == Header;
      assert r[|r| - |Footer|..] == Footer;
      r
  }

  /** Without entity sets the summary is just the opening and closing lines: no group heading. */
  lemma EmptyContainerSummary(schema: Schema)
    requires |EntitySets(schema)| == 0
    ensures Describe(Document(Some(schema))) == Header + Footer
  {
    assert Group([], false) == [] && Group([], true) == [];
  }

  /** A group heading is printed exactly when the group has an entity set, even one that is skipped. */
  lemma SectionHeadingIffNonEmpty(heading: string, sets: seq<EntitySet>, types: seq<EntityType>)
    ensures StartsWith(Section(heading, sets, types), Line(heading)) <==> |sets| > 0
  {
  }

  /** The paragraph of the k-th member of a group sits between those of the members before and after it. */
  lemma ParagraphAt(g: seq<EntitySet>, k: nat, types: seq<EntityType>)
    requires k < |g|
    ensures Paragraphs(g, types)
      == Paragraphs(g[..k], types) + EntitySetParagraph(g[k], types) + Paragraphs(g[k + 1..], types)
  {
    assert g == g[..k] + [g[k]] + g[k + 1..];
    ParagraphsAppend(g[..k] + [g[k]], g[k + 1..], types);
    ParagraphsAppend(g[..k], [g[k]], types);
    assert [g[k]][..0] == [];
  }

  /**
   * Each entity set's paragraph appears in the section of its own group:
   * Views when its name starts with 'V', Core Entities otherwise.
   */
  lemma ParagraphInOwnSection(schema: Schema, es: EntitySet)
    requires es in EntitySets(schema)
    ensures var heading := if IsView(es) then ViewsHeading else CoreHeading;
      Contains(Section(heading, Group(EntitySets(schema), IsView(es)), schema.entityTypes),
               EntitySetParagraph(es, schema.entityTypes))
  {
    var types := schema.entityTypes;
    var g := Group(EntitySets(schema), IsView(es));
    GroupMembership(EntitySets(schema), IsView(es), es);
    var k :| 0 <= k < |g| && g[k] == es;
    ParagraphAt(g, k, types);
    var heading := if IsView(es) then ViewsHeading else CoreHeading;
    var before := Line(heading) + NewLine + Paragraphs(g[..k], types);
    var p := EntitySetParagraph(es, types);
    var after := Paragraphs(g[k + 1..], types);
    ConcatAssoc(Line(heading) + NewLine, Paragraphs(g[..k], types) + p, after);
    ConcatAssoc(Line(heading) + NewLine, Paragraphs(g[..k], types), p);
    assert Section(heading, g, types) == before + p + after;
    ContainsInfix(before, p, after);
  }

  // ---------------------------------------------------------------------
  // The StringBuilder code
  // ---------------------------------------------------------------------

  /** Appends one entity set's paragraph to the text built so far. */
  method AppendEntitySetDescription(sb: string, es: EntitySet, schema: Schema) returns (result: string)
    ensures result == sb + EntitySetParagraph(es, schema.entityTypes)
  {
    var entitySetName := es.name;
    var entityTypeName := EntityTypeName(es);
    if entitySetName.None? || entitySetName.value == "" || entityTypeName.None? || entityTypeName.value == "" {
      return sb;
    }
    var nameLine := NameLine(entitySetName.value);
    result := sb + nameLine;
    var entityType := FindEntityType(schema.entityTypes, entityTypeName.value);
    ghost var details := "";
    if entityType.Some? {
      result := AppendTypeDetails(result, entityType.value);
      details := TypeDetails(entityType.value);
    }
    ConcatAssoc(sb, nameLine, details);
    result := result + NewLine;
    ConcatAssoc(sb, nameLine + details, NewLine);
  }

  /** The key, property and navigation lines of a resolved entity type, each only when its list is non-empty. */
  method AppendTypeDetails(sb: string, t: EntityType) returns (result: string)
    ensures result == sb + TypeDetails(t)
  {
    result := sb;
    var keys := KeyNames(t);
    if |keys| > 0 {
      result := result + Line(KeyPrefix + Join(ListSeparator, keys));
    }
    assert result == sb + KeyLine(t);
    var properties := ListedProperties(t);
    if |properties| > 0 {
      result := result + Line(PropertiesPrefix + Join(ListSeparator, properties));
    }
    assert result == sb + KeyLine(t) + PropertiesLine(t);
    ConcatAssoc(sb, KeyLine(t), PropertiesLine(t));
    var navProperties := NavigationNames(t);
    if |navProperties| > 0 {
      result := result + Line(NavigationPrefix + Join(ListSeparator, navProperties));
    }
    assert result == sb + (KeyLine(t) + PropertiesLine(t)) + NavigationLine(t);
    ConcatAssoc(sb, KeyLine(t) + PropertiesLine(t), NavigationLine(t));
  }

  /** Appends a group: its heading, then each entity set's paragraph in order. */
  method AppendGroup(sb: string, heading: string, group: seq<EntitySet>, schema: Schema) returns (result: string)
    requires |group| > 0
    ensures result == sb + Section(heading, group, schema.entityTypes)
  {
    var types := schema.entityTypes;
    var top := Line(heading) + NewLine;
    result := sb + Line(heading) + NewLine;
    ConcatAssoc(sb, Line(heading), NewLine);
    assert group[..0] == [];
    for i := 0 to |group|
      invariant result == sb + (top + Paragraphs(group[..i], types))
    {
      assert group[..i + 1][..i] == group[..i];
      ConcatAssoc(sb, top + Paragraphs(group[..i], types), EntitySetParagraph(group[i], types));
      ConcatAssoc(top, Paragraphs(group[..i], types), EntitySetParagraph(group[i], types));
      result := AppendEntitySetDescription(result, group[i], schema);
    }
    assert group[..|group|] == group;
  }

  /** The foreach loop that sorts the entity sets into tables (core entities) and views. */
  method PartitionEntitySets(entitySets: seq<EntitySet>) returns (tableEntitySets: seq<EntitySet>, viewEntitySets: seq<EntitySet>)
    ensures tableEntitySets == Group(entitySets, false)
    ensures viewEntitySets == Group(entitySets, true)
  {
    tableEntitySets := [];
    viewEntitySets := [];
    for i := 0 to |entitySets|
      invariant tableEntitySets == Group(entitySets[..i], false)
      invariant viewEntitySets == Group(entitySets[..i], true)
    {
      assert entitySets[..i + 1][..i] == entitySets[..i];
      var name := entitySets[i].name.GetOr("");
      if StartsWith(name, "V") {
        viewEntitySets := viewEntitySets + [entitySets[i]];
      } else {
        tableEntitySets := tableEntitySets + [entitySets[i]];
      }
    }
    assert entitySets[..|entitySets|] == entitySets;
  }

  /** ParseMetadataToDescription: sorts the entity sets into the two groups, then writes the summary. */
  method ParseMetadataToDescription(doc: MetadataDocument) returns (description: string)
    ensures description == Describe(doc)
  {
    if doc.Malformed? {
      return FallbackDescription;
    }
    var sb := Line(Intro) + NewLine + Line(EntitySetsHeading) + NewLine;
    assert sb == Header;
    if doc.schema.None? {
      return FallbackDescription;
    }
    var schema := doc.schema.value;
    var tableEntitySets, viewEntitySets := PartitionEntitySets(EntitySets(schema));
    var types := schema.entityTypes;
    ghost var core := Section(CoreHeading, tableEntitySets, types);
    ghost var views := Section(ViewsHeading, viewEntitySets, types);
    if |tableEntitySets| > 0 {
      sb := AppendGroup(sb, CoreHeading, tableEntitySets, schema);
    }
    assert sb == Header + core;
    if |viewEntitySets| > 0 {
      sb := AppendGroup(sb, ViewsHeading, viewEntitySets, schema);
    }
    ConcatAssoc(Header, core, views);
    sb := sb + NewLine;
    sb := sb + Line(QueryCapabilities);
    ConcatAssoc(Header + (core + views), NewLine, Line(QueryCapabilities));
    description := sb;
  }
}
