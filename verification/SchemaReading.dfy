/** Strict schemas in plain JSON terms: every subschema, however deep, keeps the same law. */
module SchemaReading {
  // What is inside a schema, and what each subschema has to be, by the names of its members.

  import opened Wrappers
  import opened JsonValues
  import opened Worklist
  import opened StrictSchema

  function Get(v: Json, key: string): Option<Json> {
    if v.JObject? then Find(v.members, key) else None
  }

  predicate Has(v: Json, key: string) {
    Get(v, key).Some?
  }

  const TYPE_NAMES := ["string", "number", "boolean", "integer", "object", "array", "null"]

  /** The declared types by name: one, or one and "null". */
  function TypeNames(v: Json): Option<seq<string>> {
    match Get(v, "type")
    case Some(JString(name)) => if name in TYPE_NAMES then Some([name]) else None
    case Some(JArray(items)) =>
      if |items| == 2 && items[0].JString? && items[1].JString? then Pair(items[0].s, items[1].s) else None
    case _ => None
  }

  function Pair(a: string, b: string): Option<seq<string>> {
    if a in TYPE_NAMES && b in TYPE_NAMES && a != b && (a == "null" || b == "null") then Some([a, b]) else None
  }

  predicate Typed(v: Json, name: string) {
    TypeNames(v).Some? && name in TypeNames(v).value
  }

  predicate IsOf(v: Json, name: string) {
    match v
    case JString(_) => name == "string"
    case JNumber(_, integral) => name == "number" || (integral && name == "integer")
    case JBool(_) => name == "boolean"
    case JNull => name == "null"
    case _ => false
  }

  predicate IsOfSome(v: Json, names: seq<string>) {
    exists name | name in names :: IsOf(v, name)
  }

  ghost predicate OnlyKeys(v: Json, keys: set<string>)
    requires v.JObject?
  {
    forall m | m in v.members :: m.0 in keys
  }

  // ---------- The law of one subschema ----------

  /** A reference stands alone, and names the root or one of its definitions. */
  ghost predicate ReferenceLaw(root: Json, v: Json)
    requires v.JObject?
  {
    |v.members| == 1 && Get(v, "$ref").Some? && Get(v, "$ref").value.JString? && Resolves(root, Get(v, "$ref").value.s)
  }

  /** A union has at least two branches, and nothing but a description and definitions beside them. */
  ghost predicate UnionLaw(v: Json)
    requires v.JObject?
  {
    && Has(v, "anyOf") && Get(v, "anyOf").value.JArray? && |Get(v, "anyOf").value.items| >= 2
    && OnlyKeys(v, {"anyOf", "description", "$defs"})
  }

  /** An object is closed, and requires each of its properties once and nothing else. */
  ghost predicate ObjectLaw(v: Json) {
    && Has(v, "properties") && Get(v, "properties").value.JObject?
    && Get(v, "additionalProperties") == Some(JBool(false))
    && Has(v, "required") && Get(v, "required").value.JArray?
    && var required, properties := Get(v, "required").value.items, Get(v, "properties").value.members;
    && |required| == |properties|
    && (forall i | 0 <= i < |required| :: required[i].JString?)
    && (forall i, j | 0 <= i < j < |required| :: required[i] != required[j])
    && (forall i | 0 <= i < |properties| :: JString(properties[i].0) in required)
  }

  ghost predicate EnumLaw(write: Writer, v: Json, names: seq<string>) {
    Has(v, "enum") ==>
      && Get(v, "enum").value.JArray?
      && var values := Get(v, "enum").value.items;
      && values != []
      && (forall i | 0 <= i < |values| :: IsOfSome(values[i], names))
      && (forall i, j | 0 <= i < j < |values| :: write(values[i]) != write(values[j]))
      && (|values| > 250 ==> TextChars(values) <= 15_000)
  }

  ghost predicate TypedLaw(write: Writer, v: Json)
    requires v.JObject?
  {
    && TypeNames(v).Some? && var names := TypeNames(v).value;
    && OnlyKeys(v, {"type", "description", "enum", "const", "$defs", "properties", "required", "additionalProperties", "items"})
    && ("object" in names ==> ObjectLaw(v))
    && (Has(v, "properties") || Has(v, "required") || Has(v, "additionalProperties") ==> "object" in names)
    && ("array" in names ==> Has(v, "items") && Get(v, "items").value.JObject?)
    && (Has(v, "items") ==> "array" in names)
    && !(Has(v, "enum") && Has(v, "const"))
    && EnumLaw(write, v, names)
    && (Has(v, "const") ==> IsOfSome(Get(v, "const").value, names))
  }

  ghost predicate Law(write: Writer, root: Json, v: Json) {
    && v.JObject?
    && if Has(v, "$ref") then ReferenceLaw(root, v)
       else
         && (Has(v, "description") ==> Get(v, "description").value.JString?)
         && (Has(v, "$defs") ==> Get(v, "$defs").value.JObject?)
         && if Has(v, "anyOf") then UnionLaw(v) else TypedLaw(write, v)
  }

  // ---------- Against the check's rules ----------

  lemma KindNames(name: string)
    ensures KindOf(name).Some? <==> name in TYPE_NAMES
  {
    assert TYPE_NAMES[0] == "string" && TYPE_NAMES[1] == "number" && TYPE_NAMES[2] == "boolean" && TYPE_NAMES[3] == "integer"
           && TYPE_NAMES[4] == "object" && TYPE_NAMES[5] == "array" && TYPE_NAMES[6] == "null";
  }

  lemma KindMatches(v: Json, name: string)
    requires KindOf(name).Some?
    ensures Matches(v, KindOf(name).value) <==> IsOf(v, name)
    ensures (KindOf(name).value == ObjectKind <==> name == "object") && (KindOf(name).value == ArrayKind <==> name == "array")
    ensures KindOf(name).value == NullKind <==> name == "null"
  {
  }

  lemma KindsDiffer(a: string, b: string)
    requires KindOf(a).Some? && KindOf(b).Some?
    ensures KindOf(a) == KindOf(b) <==> a == b
  {
  }

  /** The kinds read are those of the names. */
  lemma KindsAreNames(v: Json)
    requires v.JObject?
    ensures
      var kinds, names := Kinds(Get(v, "type")), TypeNames(v);
      && (kinds.Some? <==> names.Some?)
      && (kinds.Some? ==> |kinds.value| == |names.value|
                          && forall i | 0 <= i < |names.value| :: KindOf(names.value[i]) == Some(kinds.value[i]))
  {
    match Get(v, "type")
    case Some(JString(name)) => KindNames(name);
    case Some(JArray(items)) =>
      if |items| == 2 && items[0].JString? && items[1].JString? {
        var a, b := items[0].s, items[1].s;
        assert items == [JString(a), JString(b)];
        KindNames(a);
        KindNames(b);
        if KindOf(a).Some? && KindOf(b).Some? {
          KindsDiffer(a, b);
          KindMatches(JNull, a);
          KindMatches(JNull, b);
        }
      }
    case _ =>
  }

  lemma NamedKinds(v: Json, name: string)
    requires v.JObject? && name in {"object", "array"}
    ensures HasKind(FieldsOf(v), KindOf(name).value) <==> Typed(v, name)
  {
    KindsAreNames(v);
    var kinds, names := Kinds(Get(v, "type")), TypeNames(v);
    if kinds.Some? {
      forall i | 0 <= i < |names.value| ensures kinds.value[i] == KindOf(name).value <==> names.value[i] == name {
        KindsDiffer(names.value[i], name);
      }
      if Typed(v, name) {
        var i :| 0 <= i < |names.value| && names.value[i] == name;
        assert kinds.value[i] in kinds.value;
      }
      if KindOf(name).value in kinds.value {
        var i :| 0 <= i < |kinds.value| && kinds.value[i] == KindOf(name).value;
        assert names.value[i] in names.value;
      }
    }
  }

  lemma MatchesByName(v: Json, x: Json)
    requires v.JObject? && TypeNames(v).Some?
    ensures Kinds(Get(v, "type")).Some? && (MatchesAny(x, Kinds(Get(v, "type")).value) <==> IsOfSome(x, TypeNames(v).value))
  {
    KindsAreNames(v);
    var kinds, names := Kinds(Get(v, "type")).value, TypeNames(v).value;
    forall i | 0 <= i < |names| ensures Matches(x, kinds[i]) <==> IsOf(x, names[i]) {
      KindMatches(x, names[i]);
    }
    if MatchesAny(x, kinds) {
      var i :| 0 <= i < |kinds| && Matches(x, kinds[i]);
      assert names[i] in names && IsOf(x, names[i]);
    }
    if IsOfSome(x, names) {
      var i :| 0 <= i < |names| && IsOf(x, names[i]);
      assert Matches(x, kinds[i]);
    }
  }

  /** No keys but some, said key by key. */
  lemma KeysByName(v: Json, keys: set<string>)
    requires v.JObject? && keys <= KEYWORDS
    ensures OnlyKeys(v, keys) <==> !FieldsOf(v).stray && forall k | k in KEYWORDS - keys :: Get(v, k).None?
  {
    var ms := v.members;
    if OnlyKeys(v, keys) {
      forall i | 0 <= i < |ms| ensures ms[i].0 in keys {
        assert ms[i] in ms;
      }
    }
    if !FieldsOf(v).stray && forall k | k in KEYWORDS - keys :: Get(v, k).None? {
      forall m | m in ms ensures m.0 in keys {
        var i :| 0 <= i < |ms| && ms[i] == m;
        assert ms[i].0 in KEYWORDS && Get(v, ms[i].0).Some?;
      }
    }
  }

  lemma ReferenceIsLegal(root: Json, v: Json)
    requires v.JObject?
    ensures LegalReference(root, FieldsOf(v)) <==> ReferenceLaw(root, v)
  {
  }

  lemma UnionIsLegal(v: Json)
    requires v.JObject? && !Has(v, "$ref") && Has(v, "anyOf")
    ensures LegalUnion(FieldsOf(v)) <==> UnionLaw(v)
  {
    var keys := {"anyOf", "description", "$defs"};
    KeysByName(v, keys);
    assert KEYWORDS - keys
           == {"$ref", "type", "enum", "const", "properties", "required", "additionalProperties", "items"};
  }

  lemma ObjectIsLegal(v: Json)
    requires v.JObject?
    ensures LegalObject(FieldsOf(v)) <==> ObjectLaw(v)
  {
    var f := FieldsOf(v);
    if IsArray(f.required) && IsObject(f.properties) && AllStrings(ItemsOf(f.required)) {
      RequiredByName(ItemsOf(f.required), MembersOf(f.properties));
    }
  }

  lemma RequiredByName(items: seq<Json>, properties: Members)
    requires AllStrings(items)
    ensures Distinct(Strings(items)) <==> forall i, j | 0 <= i < j < |items| :: items[i] != items[j]
    ensures
      (forall i | 0 <= i < |properties| :: properties[i].0 in Strings(items))
      <==> (forall i | 0 <= i < |properties| :: JString(properties[i].0) in items)
  {
    var ss := Strings(items);
    forall name ensures name in ss <==> JString(name) in items {
      if name in ss {
        var i :| 0 <= i < |ss| && ss[i] == name;
        assert items[i] == JString(name);
      }
      if JString(name) in items {
        var i :| 0 <= i < |items| && items[i] == JString(name);
        assert ss[i] == name;
      }
    }
    if Distinct(ss) {
      forall i, j | 0 <= i < j < |items| ensures items[i] != items[j] {
        assert ss[i] != ss[j];
      }
    }
    if forall i, j | 0 <= i < j < |items| :: items[i] != items[j] {
      forall i, j | 0 <= i < j < |ss| ensures ss[i] != ss[j] {
        assert items[i] != items[j];
      }
    }
  }

  lemma ValuesAreLegal(write: Writer, v: Json)
    requires v.JObject? && TypeNames(v).Some?
    ensures Kinds(Get(v, "type")).Some?
    ensures LegalValues(write, FieldsOf(v), Kinds(Get(v, "type")).value) <==> EnumLaw(write, v, TypeNames(v).value)
    ensures LegalConstant(FieldsOf(v), Kinds(Get(v, "type")).value)
            <==> (Has(v, "const") ==> IsOfSome(Get(v, "const").value, TypeNames(v).value))
  {
    MatchesByName(v, JNull);
    var kinds, names := Kinds(Get(v, "type")).value, TypeNames(v).value;
    forall x ensures MatchesAny(x, kinds) <==> IsOfSome(x, names) {
      MatchesByName(v, x);
    }
    if Has(v, "enum") && Get(v, "enum").value.JArray? {
      EnumIsLegal(write, Get(v, "enum").value.items, kinds, names);
    }
  }

  lemma EnumIsLegal(write: Writer, values: seq<Json>, kinds: seq<Kind>, names: seq<string>)
    requires forall x :: MatchesAny(x, kinds) <==> IsOfSome(x, names)
    ensures
      LegalEnum(write, values, kinds)
      <==> && values != [] && (forall i | 0 <= i < |values| :: IsOfSome(values[i], names))
           && (forall i, j | 0 <= i < j < |values| :: write(values[i]) != write(values[j]))
           && (|values| > 250 ==> TextChars(values) <= 15_000)
  {
    var written := WriteAll(write, values);
    if Distinct(written) {
      forall i, j | 0 <= i < j < |values| ensures write(values[i]) != write(values[j]) {
        assert written[i] != written[j];
      }
    }
    if forall i, j | 0 <= i < j < |values| :: write(values[i]) != write(values[j]) {
      forall i, j | 0 <= i < j < |written| ensures written[i] != written[j] {
        assert write(values[i]) != write(values[j]);
      }
    }
  }

  lemma TypedIsLegal(write: Writer, v: Json)
    requires v.JObject? && !Has(v, "$ref") && !Has(v, "anyOf")
    ensures LegalTyped(write, FieldsOf(v)) <==> TypedLaw(write, v)
  {
    var keys := {"type", "description", "enum", "const", "$defs", "properties", "required", "additionalProperties", "items"};
    KeysByName(v, keys);
    assert KEYWORDS - keys == {"$ref", "anyOf"};
    KindsAreNames(v);
    NamedKinds(v, "object");
    NamedKinds(v, "array");
    ObjectIsLegal(v);
    if TypeNames(v).Some? {
      ValuesAreLegal(write, v);
    }
  }

  /** A subschema passes the check's rules exactly if it keeps the law. */
  lemma LawIsLegal(write: Writer, root: Json, v: Json)
    requires v.JObject?
    ensures LegalFields(write, root, FieldsOf(v)) <==> Law(write, root, v)
  {
    if Has(v, "$ref") {
      ReferenceIsLegal(root, v);
    } else if Has(v, "anyOf") {
      UnionIsLegal(v);
    } else {
      TypedIsLegal(write, v);
    }
  }

  // ---------- What is inside ----------

  predicate AmongMembers(v: Option<Json>, w: Json) {
    v.Some? && v.value.JObject? && exists m | m in v.value.members :: m.1 == w
  }

  /** A branch of a union, a property of an object, the items of an array, or a definition. */
  predicate Directly(v: Json, w: Json) {
    && v.JObject? && !Has(v, "$ref")
    && (|| (Has(v, "anyOf") && Get(v, "anyOf").value.JArray? && w in Get(v, "anyOf").value.items)
        || (!Has(v, "anyOf") && Typed(v, "object") && AmongMembers(Get(v, "properties"), w))
        || (!Has(v, "anyOf") && Typed(v, "array") && Get(v, "items") == Some(w))
        || AmongMembers(Get(v, "$defs"), w))
  }

  lemma ValuesAreMembers(v: Option<Json>, w: Json)
    ensures w in Values(MembersOf(v)) <==> AmongMembers(v, w)
  {
    var ms := MembersOf(v);
    if w in Values(ms) {
      var i :| 0 <= i < |ms| && Values(ms)[i] == w;
      assert ms[i] in ms && ms[i].1 == w;
    }
    if AmongMembers(v, w) {
      var m :| m in ms && m.1 == w;
      var i :| 0 <= i < |ms| && ms[i] == m;
      assert Values(ms)[i] == w;
    }
  }

  lemma InsideHolds(f: Fields, w: Json, named: bool, listed: bool)
    requires named == HasKind(f, ObjectKind) && listed == HasKind(f, ArrayKind)
    ensures
      w in Inside(f)
      <==> && f.reference.None?
           && (|| w in Values(MembersOf(f.definitions))
               || if f.branches.Some? then w in ItemsOf(f.branches)
                  else (named && w in Values(MembersOf(f.properties))) || (listed && f.elements == Some(w)))
  {
  }

  lemma InsideIsDirect(v: Json, w: Json)
    requires v.JObject?
    ensures w in Inside(FieldsOf(v)) <==> Directly(v, w)
  {
    NamedKinds(v, "object");
    NamedKinds(v, "array");
    ValuesAreMembers(Get(v, "properties"), w);
    ValuesAreMembers(Get(v, "$defs"), w);
    InsideHolds(FieldsOf(v), w, Typed(v, "object"), Typed(v, "array"));
  }

  /** Reached from a schema in so many steps inwards. */
  ghost predicate Reaches(v: Json, w: Json, n: nat)
    decreases n
  {
    if n == 0 then v == w else exists u :: Directly(v, u) && Reaches(u, w, n - 1)
  }

  /** Every subschema is fewer levels deep, and keeps the law. */
  ghost predicate Lawful(write: Writer, root: Json, v: Json, levels: nat) {
    forall w, n: nat | Reaches(v, w, n) :: n < levels && Law(write, root, w)
  }

  function Kids(v: Json): seq<Json> {
    if v.JObject? then Inside(FieldsOf(v)) else []
  }

  /** Rules that are those of the law. */
  ghost predicate Reads(rules: Rules<Json>, write: Writer, root: Json) {
    forall v :: (rules.legal(v) <==> Law(write, root, v)) && rules.children(v) == Kids(v) && rules.cost(v) == Share(write, v)
  }

  lemma RulesRead(write: Writer, root: Json)
    ensures Reads(SchemaRules(write, root), write, root)
  {
    forall v
      ensures
        var rules := SchemaRules(write, root);
        (rules.legal(v) <==> Law(write, root, v)) && rules.children(v) == Kids(v) && rules.cost(v) == Share(write, v)
    {
      if v.JObject? {
        LawIsLegal(write, root, v);
        ShareIsCost(write, v);
      }
    }
  }

  lemma ChildIsDirect(v: Json, w: Json) returns (i: nat)
    requires Directly(v, w)
    ensures v.JObject? && i < |Inside(FieldsOf(v))| && Inside(FieldsOf(v))[i] == w
  {
    InsideIsDirect(v, w);
    i :| 0 <= i < |Inside(FieldsOf(v))| && Inside(FieldsOf(v))[i] == w;
  }

  /** Whatever is directly inside is a child. */
  ghost predicate Kin(rules: Rules<Json>) {
    forall v, w | Directly(v, w) :: w in rules.children(v)
  }

  lemma ReadsKin(rules: Rules<Json>, write: Writer, root: Json)
    requires Reads(rules, write, root)
    ensures Kin(rules)
  {
    forall v, w | Directly(v, w) ensures w in rules.children(v) {
      var i := ChildIsDirect(v, w);
      assert Kids(v)[i] == w;
    }
  }

  lemma LegalRoot(rules: Rules<Json>, v: Json, levels: nat)
    requires Legal(rules, v, levels)
    ensures levels > 0 && rules.legal(v)
  {
  }

  lemma LegalChild(rules: Rules<Json>, v: Json, levels: nat, u: Json)
    requires Legal(rules, v, levels) && u in rules.children(v)
    ensures levels > 0 && Legal(rules, u, levels - 1)
  {
  }

  lemma FirstStep(v: Json, w: Json, n: nat) returns (u: Json)
    requires Reaches(v, w, n) && n > 0
    ensures Directly(v, u) && Reaches(u, w, n - 1)
  {
    u :| Directly(v, u) && Reaches(u, w, n - 1);
  }

  lemma {:induction false} LegalReaches(rules: Rules<Json>, v: Json, levels: nat, w: Json, n: nat)
    requires Kin(rules) && Legal(rules, v, levels) && Reaches(v, w, n)
    ensures n < levels && rules.legal(w)
    decreases n
  {
    if n == 0 {
      LegalRoot(rules, v, levels);
    } else {
      var u := FirstStep(v, w, n);
      LegalChild(rules, v, levels, u);
      LegalReaches(rules, u, levels - 1, w, n - 1);
    }
  }

  lemma {:induction false} LawfulIsLegal(write: Writer, root: Json, rules: Rules<Json>, v: Json, levels: nat)
    requires Reads(rules, write, root) && Lawful(write, root, v, levels)
    ensures Legal(rules, v, levels)
    decreases levels
  {
    assert Reaches(v, v, 0);
    var children := Kids(v);
    forall i | 0 <= i < |children| ensures Legal(rules, children[i], levels - 1) {
      InsideIsDirect(v, children[i]);
      OneLevelIn(write, root, v, children[i], levels);
      LawfulIsLegal(write, root, rules, children[i], levels - 1);
    }
  }

  lemma OneLevelIn(write: Writer, root: Json, v: Json, u: Json, levels: nat)
    requires Lawful(write, root, v, levels) && Directly(v, u) && levels > 0
    ensures Lawful(write, root, u, levels - 1)
  {
    forall w, n: nat | Reaches(u, w, n) ensures n < levels - 1 && Law(write, root, w) {
      assert Reaches(v, w, n + 1);
    }
  }

  // ---------- What is counted ----------

  /** What a schema with these members counts: itself, its properties, the characters of names and values, enum values. */
  function Counted(
      write: Writer, reference: Option<Json>, branches: Option<Json>, properties: Option<Json>, values: Option<Json>,
      constant: Option<Json>, definitions: Option<Json>): Totals
  {
    var names := NameChars(MembersOf(definitions));
    if reference.Some? then Totals(1, 0, 0, 0)
    else if branches.Some? then Totals(1, 0, names, 0)
    else
      var text := NameChars(MembersOf(properties)) + WrittenChars(write, ItemsOf(values))
                  + (if constant.Some? then |write(constant.value)| else 0);
      Totals(1, |MembersOf(properties)|, text + names, |ItemsOf(values)|)
  }

  function ObjectProperties(v: Json): Option<Json> {
    if Typed(v, "object") then Get(v, "properties") else None
  }

  function Share(write: Writer, v: Json): Totals {
    if v.JObject? then
      Counted(write, Get(v, "$ref"), Get(v, "anyOf"), ObjectProperties(v), Get(v, "enum"), Get(v, "const"), Get(v, "$defs"))
    else Zero
  }

  lemma AddUp(a: Totals, b: Totals, c: Totals)
    ensures
      Plus(Plus(a, b), c)
      == Totals(a.nodes + b.nodes + c.nodes, a.properties + b.properties + c.properties, a.chars + b.chars + c.chars,
                a.enums + b.enums + c.enums)
  {
  }

  lemma TypedCosts(write: Writer, f: Fields, properties: Option<Json>)
    requires properties == if HasKind(f, ObjectKind) then f.properties else None
    ensures
      TypedCost(write, f)
      == Totals(0, |MembersOf(properties)|,
                NameChars(MembersOf(properties)) + WrittenChars(write, ItemsOf(f.values))
                + (if f.constant.Some? then |write(f.constant.value)| else 0),
                |ItemsOf(f.values)|)
  {
    AddUp(PropertiesCost(f), EnumCost(write, ItemsOf(f.values)), ConstantCost(write, f));
  }

  lemma CostIsSum(write: Writer, f: Fields)
    requires f.reference.None?
    ensures FieldsCost(write, f) == Plus(Plus(OneNode, BodyCost(write, f)), DefinitionsCost(f))
  {
  }

  lemma BodyAndNames(body: Totals, ms: Members, names: Totals)
    requires names == Totals(0, 0, NameChars(ms), 0)
    ensures Plus(Plus(OneNode, body), names) == Totals(1 + body.nodes, body.properties, body.chars + NameChars(ms), body.enums)
  {
  }

  lemma NamesCost(f: Fields)
    ensures DefinitionsCost(f) == Totals(0, 0, NameChars(MembersOf(f.definitions)), 0)
  {
  }

  lemma UnionCosts(write: Writer, f: Fields)
    requires f.branches.Some?
    ensures BodyCost(write, f) == Totals(0, 0, 0, 0)
  {
  }

  lemma BodyCosts(write: Writer, f: Fields)
    requires f.branches.None?
    ensures BodyCost(write, f) == TypedCost(write, f)
  {
  }

  lemma CostsAdd(write: Writer, f: Fields, body: Totals, ms: Members)
    requires f.reference.None? && body == BodyCost(write, f) && ms == MembersOf(f.definitions)
    ensures FieldsCost(write, f) == Totals(1 + body.nodes, body.properties, body.chars + NameChars(ms), body.enums)
  {
    CostIsSum(write, f);
    NamesCost(f);
    BodyAndNames(body, ms, DefinitionsCost(f));
  }

  lemma NamesOnly(body: Totals, ms: Members, names: Totals)
    requires names == Totals(0, 0, NameChars(ms), 0) && body == Totals(0, 0, 0, 0)
    ensures Plus(Plus(OneNode, body), names) == Totals(1, 0, NameChars(ms), 0)
  {
  }

  lemma UnionAdds(write: Writer, f: Fields, ms: Members)
    requires f.reference.None? && f.branches.Some? && ms == MembersOf(f.definitions)
    ensures FieldsCost(write, f) == Totals(1, 0, NameChars(ms), 0)
  {
    CostIsSum(write, f);
    NamesCost(f);
    UnionCosts(write, f);
    NamesOnly(BodyCost(write, f), ms, DefinitionsCost(f));
  }

  lemma CostsAre(write: Writer, f: Fields, properties: Option<Json>)
    requires properties == if HasKind(f, ObjectKind) then f.properties else None
    ensures
      FieldsCost(write, f)
      == Counted(write, f.reference, f.branches, properties, f.values, f.constant, f.definitions)
  {
    if f.reference.None? {
      if f.branches.Some? {
        UnionAdds(write, f, MembersOf(f.definitions));
      } else {
        TypedCosts(write, f, properties);
        BodyCosts(write, f);
        CostsAdd(write, f, TypedCost(write, f), MembersOf(f.definitions));
      }
    }
  }

  lemma ShareIsCost(write: Writer, v: Json)
    requires v.JObject?
    ensures FieldsCost(write, FieldsOf(v)) == Share(write, v)
  {
    NamedKinds(v, "object");
    CostsAre(write, FieldsOf(v), ObjectProperties(v));
  }

  /** A schema and all that is inside it, as often as it is there. */
  ghost function Shares(write: Writer, v: Json, levels: nat): Totals
    decreases levels, 0
  {
    if levels == 0 then Zero
    else Plus(Share(write, v), SharesOf(write, Kids(v), levels - 1))
  }

  ghost function SharesOf(write: Writer, vs: seq<Json>, levels: nat): Totals
    decreases levels, 1 + |vs|
  {
    if vs == [] then Zero
    else Plus(SharesOf(write, vs[..|vs| - 1], levels), Shares(write, vs[|vs| - 1], levels))
  }

  lemma {:induction false} SharesAreCosts(write: Writer, root: Json, rules: Rules<Json>, v: Json, levels: nat)
    requires Reads(rules, write, root)
    ensures TotalCost(rules, v, levels) == Shares(write, v, levels)
    decreases levels, 0
  {
    if levels > 0 {
      SharesOfAreCosts(write, root, rules, Kids(v), levels - 1);
    }
  }

  lemma {:induction false} SharesOfAreCosts(write: Writer, root: Json, rules: Rules<Json>, vs: seq<Json>, levels: nat)
    requires Reads(rules, write, root)
    ensures SumCosts(rules, vs, levels) == SharesOf(write, vs, levels)
    decreases levels, 1 + |vs|
  {
    if vs != [] {
      SharesOfAreCosts(write, root, rules, vs[..|vs| - 1], levels);
      SharesAreCosts(write, root, rules, vs[|vs| - 1], levels);
    }
  }

  lemma LegalIffLawful(write: Writer, schema: Json, rules: Rules<Json>)
    requires Reads(rules, write, schema)
    ensures Legal(rules, schema, 10) <==> Lawful(write, schema, schema, 10)
  {
    ReadsKin(rules, write, schema);
    if Legal(rules, schema, 10) {
      forall w, n: nat | Reaches(schema, w, n) ensures n < 10 && Law(write, schema, w) {
        LegalReaches(rules, schema, 10, w, n);
      }
    }
    if Lawful(write, schema, schema, 10) {
      LawfulIsLegal(write, schema, rules, schema, 10);
    }
  }

  /**
    The check accepts a schema exactly if its root is an object schema and no union, everything inside it, however it
    is reached, is fewer than ten steps in and keeps the law, and all of it together has at most twenty thousand
    subschemas, five thousand properties, 120000 characters and a thousand enum values.
   */
  lemma StrictIffLawful(write: Writer, schema: Json)
    ensures
      Strict(write, schema)
      <==> && Get(schema, "type") == Some(JString("object")) && !Has(schema, "anyOf")
           && Lawful(write, schema, schema, 10)
           && var all := Shares(write, schema, 10);
           all.nodes <= 20_000 && all.properties <= 5_000 && all.chars <= 120_000 && all.enums <= 1_000
  {
    var rules := SchemaRules(write, schema);
    RulesRead(write, schema);
    SharesAreCosts(write, schema, rules, schema, 10);
    LegalIffLawful(write, schema, rules);
  }

  // ---------- References ----------

  /** A name as a token of a JSON pointer (section 3 of RFC 6901). */
  function Escaped(name: string): string {
    if name == "" then ""
    else (if name[0] == '~' then "~0" else if name[0] == '/' then "~1" else [name[0]]) + Escaped(name[1..])
  }

  /** With the slashes put back, but not yet the tildes. */
  function HalfEscaped(name: string): string {
    if name == "" then "" else (if name[0] == '~' then "~0" else [name[0]]) + HalfEscaped(name[1..])
  }

  lemma {:induction false} SlashesBack(name: string)
    ensures Replace(Escaped(name), '1', '/') == HalfEscaped(name) && '/' !in Escaped(name)
  {
    if name != "" {
      SlashesBack(name[1..]);
      var rest := Escaped(name[1..]);
      if name[0] == '~' {
        assert Escaped(name)[1..] == ['0'] + rest;
        assert (['0'] + rest)[1..] == rest;
      } else if name[0] == '/' {
        assert Escaped(name)[2..] == rest;
      } else {
        assert Escaped(name)[1..] == rest;
      }
    }
  }

  lemma {:induction false} TildesBack(name: string)
    ensures Replace(HalfEscaped(name), '0', '~') == name
  {
    if name != "" {
      TildesBack(name[1..]);
      var rest := HalfEscaped(name[1..]);
      if name[0] == '~' {
        assert HalfEscaped(name)[2..] == rest;
        assert ['~'] + name[1..] == name;
      } else {
        assert HalfEscaped(name)[1..] == rest;
        assert [name[0]] + name[1..] == name;
      }
    }
  }

  /** A reference to a definition, its name escaped, resolves exactly if the root has an object under that name. */
  lemma ReferencesResolve(root: Json, name: string)
    requires name != "" && Has(root, "$defs") && Get(root, "$defs").value.JObject?
    ensures
      Resolves(root, "#/$defs/" + Escaped(name))
      <==> Has(Get(root, "$defs").value, name) && Get(Get(root, "$defs").value, name).value.JObject?
  {
    SlashesBack(name);
    TildesBack(name);
    var reference := DEFINITIONS + Escaped(name);
    assert reference[|DEFINITIONS|..] == Escaped(name) && reference[..|DEFINITIONS|] == DEFINITIONS;
  }
}
