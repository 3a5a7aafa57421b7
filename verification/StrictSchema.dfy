/** The strict-mode check of a structured-output schema. */
module StrictSchema {
  import opened Wrappers
  import opened JsonValues
  import opened Decimals
  import opened Worklist

  const MAX_DEPTH: nat := 10
  const MAX_NODES: nat := 20_000
  const MAX_PROPERTIES: nat := 5_000
  const MAX_STRING_CHARS: nat := 120_000
  const MAX_ENUM_VALUES: nat := 1_000
  const LARGE_ENUM: nat := 250
  const MAX_LARGE_ENUM_CHARS: nat := 15_000

  type Writer = Json -> string

  type Members = seq<(string, Json)>

  // ---------- Reading a schema object ----------

  function Find(ms: Members, key: string): (r: Option<Json>)
    ensures r.None? <==> forall i | 0 <= i < |ms| :: ms[i].0 != key
  {
    if ms == [] then None else if ms[0].0 == key then Some(ms[0].1) else Find(ms[1..], key)
  }

  /** The member found is the first of that name. */
  lemma {:induction false} FoundIsFirst(ms: Members, key: string) returns (i: nat)
    requires Find(ms, key).Some?
    ensures i < |ms| && ms[i] == (key, Find(ms, key).value) && forall j | 0 <= j < i :: ms[j].0 != key
  {
    if ms[0].0 == key {
      i := 0;
    } else {
      var k := FoundIsFirst(ms[1..], key);
      i := k + 1;
    }
  }

  /** The keywords that mean something, and whether there are others. */
  datatype Fields = Fields(
    count: nat, reference: Option<Json>, kind: Option<Json>, description: Option<Json>, values: Option<Json>,
    constant: Option<Json>, definitions: Option<Json>, branches: Option<Json>, properties: Option<Json>,
    required: Option<Json>, additional: Option<Json>, elements: Option<Json>, stray: bool)

  const KEYWORDS := {
    "$ref", "type", "description", "enum", "const", "$defs", "anyOf", "properties", "required",
    "additionalProperties", "items"}

  function FieldsOf(v: Json): Fields
    requires v.JObject?
  {
    var ms := v.members;
    Fields(|ms|, Find(ms, "$ref"), Find(ms, "type"), Find(ms, "description"), Find(ms, "enum"), Find(ms, "const"),
           Find(ms, "$defs"), Find(ms, "anyOf"), Find(ms, "properties"), Find(ms, "required"),
           Find(ms, "additionalProperties"), Find(ms, "items"),
           exists i | 0 <= i < |ms| :: ms[i].0 !in KEYWORDS)
  }

  function MembersOf(v: Option<Json>): Members {
    if v.Some? && v.value.JObject? then v.value.members else []
  }

  function ItemsOf(v: Option<Json>): seq<Json> {
    if v.Some? && v.value.JArray? then v.value.items else []
  }

  predicate IsObject(v: Option<Json>) {
    v.Some? && v.value.JObject?
  }

  predicate IsArray(v: Option<Json>) {
    v.Some? && v.value.JArray?
  }

  function Values(ms: Members): seq<Json> {
    seq(|ms|, i requires 0 <= i < |ms| => ms[i].1)
  }

  predicate AllStrings(vs: seq<Json>) {
    forall i | 0 <= i < |vs| :: vs[i].JString?
  }

  function Strings(vs: seq<Json>): seq<string>
    requires AllStrings(vs)
  {
    seq(|vs|, i requires 0 <= i < |vs| => vs[i].s)
  }

  predicate Distinct(ss: seq<string>) {
    forall i, j | 0 <= i < j < |ss| :: ss[i] != ss[j]
  }

  // ---------- Types ----------

  datatype Kind = StringKind | NumberKind | BooleanKind | IntegerKind | ObjectKind | ArrayKind | NullKind

  function KindOf(name: string): Option<Kind> {
    match name
    case "string" => Some(StringKind)
    case "number" => Some(NumberKind)
    case "boolean" => Some(BooleanKind)
    case "integer" => Some(IntegerKind)
    case "object" => Some(ObjectKind)
    case "array" => Some(ArrayKind)
    case "null" => Some(NullKind)
    case _ => None
  }

  /** The declared types: one, or one and "null". */
  function Kinds(kind: Option<Json>): Option<seq<Kind>> {
    match kind
    case Some(JString(name)) => if KindOf(name).Some? then Some([KindOf(name).value]) else None
    case Some(JArray(items)) =>
      if |items| == 2 && AllStrings(items) then
        match (KindOf(items[0].s), KindOf(items[1].s))
        case (Some(a), Some(b)) => if a != b && (a == NullKind || b == NullKind) then Some([a, b]) else None
        case _ => None
      else None
    case _ => None
  }

  predicate HasKind(f: Fields, kind: Kind) {
    Kinds(f.kind).Some? && kind in Kinds(f.kind).value
  }

  predicate Matches(v: Json, kind: Kind) {
    match kind
    case StringKind => v.JString?
    case NumberKind => v.JNumber?
    case BooleanKind => v.JBool?
    case IntegerKind => v.JNumber? && v.integral
    case NullKind => v.JNull?
    case _ => false
  }

  predicate MatchesAny(v: Json, kinds: seq<Kind>) {
    exists i | 0 <= i < |kinds| :: Matches(v, kinds[i])
  }

  // ---------- References ----------

  function Replace(s: string, from: char, to: char): string {
    if |s| < 2 then s
    else if s[0] == '~' && s[1] == from then [to] + Replace(s[2..], from, to)
    else [s[0]] + Replace(s[1..], from, to)
  }

  /** A JSON pointer token as a member name (section 4 of RFC 6901). */
  function Unescaped(token: string): string {
    Replace(Replace(token, '1', '/'), '0', '~')
  }

  function Child(v: Json, token: string): Option<Json> {
    match v
    case JObject(ms) => Find(ms, token)
    case JArray(items) =>
      if IsDigits(token) && (token[0] == '0' ==> |token| == 1) && Number(token) < |items| then Some(items[Number(token)])
      else None
    case _ => None
  }

  const DEFINITIONS := "#/$defs/"

  /** A reference to the root or to an object among the root's definitions. */
  predicate Resolves(root: Json, reference: string) {
    || reference == "#"
    || (&& |reference| > |DEFINITIONS| && reference[..|DEFINITIONS|] == DEFINITIONS
        && '/' !in reference[|DEFINITIONS|..]
        && var definitions := Child(root, "$defs");
        && definitions.Some?
        && var target := Child(definitions.value, Unescaped(reference[|DEFINITIONS|..]));
        target.Some? && target.value.JObject?)
  }

  // ---------- One subschema ----------

  predicate LegalReference(root: Json, f: Fields) {
    f.reference.Some? && f.reference.value.JString? && f.count == 1 && Resolves(root, f.reference.value.s)
  }

  /** At least two branches, and no keywords but a description and definitions beside them. */
  predicate LegalUnion(f: Fields) {
    && IsArray(f.branches) && |ItemsOf(f.branches)| >= 2
    && !f.stray && f.kind.None? && f.values.None? && f.constant.None? && f.properties.None? && f.required.None?
    && f.additional.None? && f.elements.None?
  }

  /** Closed, with exactly its properties required. */
  predicate LegalObject(f: Fields) {
    && IsObject(f.properties) && f.additional == Some(JBool(false))
    && IsArray(f.required) && AllStrings(ItemsOf(f.required))
    && var required, properties := Strings(ItemsOf(f.required)), MembersOf(f.properties);
    && Distinct(required) && |required| == |properties|
    && forall i | 0 <= i < |properties| :: properties[i].0 in required
  }

  /** Keywords of objects on object schemas only, and of arrays on array schemas only. */
  predicate KeywordsAllowed(f: Fields) {
    && !f.stray
    && (f.properties.Some? || f.required.Some? || f.additional.Some? ==> HasKind(f, ObjectKind))
    && (f.elements.Some? ==> HasKind(f, ArrayKind))
  }

  function TextChars(vs: seq<Json>): nat {
    if vs == [] then 0 else TextChars(vs[..|vs| - 1]) + (if vs[|vs| - 1].JString? then |vs[|vs| - 1].s| else 0)
  }

  function WriteAll(write: Writer, vs: seq<Json>): seq<string> {
    seq(|vs|, i requires 0 <= i < |vs| => write(vs[i]))
  }

  predicate LegalEnum(write: Writer, vs: seq<Json>, kinds: seq<Kind>) {
    && vs != []
    && (forall i | 0 <= i < |vs| :: MatchesAny(vs[i], kinds))
    && Distinct(WriteAll(write, vs))
    && (|vs| > LARGE_ENUM ==> TextChars(vs) <= MAX_LARGE_ENUM_CHARS)
  }

  predicate LegalProperties(f: Fields) {
    HasKind(f, ObjectKind) ==> LegalObject(f)
  }

  /** Items for arrays, keywords only where they belong, and not both enum and const. */
  predicate Consistent(f: Fields) {
    && (HasKind(f, ArrayKind) ==> IsObject(f.elements))
    && KeywordsAllowed(f)
    && !(f.values.Some? && f.constant.Some?)
  }

  predicate LegalValues(write: Writer, f: Fields, kinds: seq<Kind>) {
    f.values.Some? ==> IsArray(f.values) && LegalEnum(write, ItemsOf(f.values), kinds)
  }

  predicate LegalConstant(f: Fields, kinds: seq<Kind>) {
    f.constant.Some? ==> MatchesAny(f.constant.value, kinds)
  }

  predicate LegalTyped(write: Writer, f: Fields) {
    && Kinds(f.kind).Some?
    && var kinds := Kinds(f.kind).value;
    LegalProperties(f) && Consistent(f) && LegalValues(write, f, kinds) && LegalConstant(f, kinds)
  }

  predicate LegalDefinitions(f: Fields) {
    f.definitions.Some? ==> IsObject(f.definitions)
  }

  predicate LegalBody(write: Writer, f: Fields) {
    if f.branches.Some? then LegalUnion(f) else LegalTyped(write, f)
  }

  predicate LegalFields(write: Writer, root: Json, f: Fields) {
    if f.reference.Some? then LegalReference(root, f)
    else
      && (f.description.Some? ==> f.description.value.JString?)
      && LegalBody(write, f) && LegalDefinitions(f)
  }

  /** The subschemas directly inside a legal one, in the order they are put on the worklist. */
  function Inside(f: Fields): seq<Json> {
    if f.reference.Some? then []
    else if f.branches.Some? then ItemsOf(f.branches) + Values(MembersOf(f.definitions))
    else
      (if HasKind(f, ObjectKind) then Values(MembersOf(f.properties)) else [])
      + (if HasKind(f, ArrayKind) && f.elements.Some? then [f.elements.value] else [])
      + Values(MembersOf(f.definitions))
  }

  function NameChars(ms: Members): nat {
    if ms == [] then 0 else NameChars(ms[..|ms| - 1]) + |ms[|ms| - 1].0|
  }

  function WrittenChars(write: Writer, vs: seq<Json>): nat {
    if vs == [] then 0 else WrittenChars(write, vs[..|vs| - 1]) + |write(vs[|vs| - 1])|
  }

  function ObjectCost(f: Fields): Totals {
    Totals(0, |MembersOf(f.properties)|, NameChars(MembersOf(f.properties)), 0)
  }

  function PropertiesCost(f: Fields): Totals {
    if HasKind(f, ObjectKind) then ObjectCost(f) else Zero
  }

  function EnumCost(write: Writer, vs: seq<Json>): Totals {
    Totals(0, 0, WrittenChars(write, vs), |vs|)
  }

  function ConstantCost(write: Writer, f: Fields): Totals {
    Totals(0, 0, if f.constant.Some? then |write(f.constant.value)| else 0, 0)
  }

  function TypedCost(write: Writer, f: Fields): Totals {
    Plus(Plus(PropertiesCost(f), EnumCost(write, ItemsOf(f.values))), ConstantCost(write, f))
  }

  function BodyCost(write: Writer, f: Fields): Totals {
    if f.branches.Some? then Zero else TypedCost(write, f)
  }

  function DefinitionsCost(f: Fields): Totals {
    Totals(0, 0, NameChars(MembersOf(f.definitions)), 0)
  }

  const OneNode := Totals(1, 0, 0, 0)

  /** What one subschema adds to the totals. */
  function FieldsCost(write: Writer, f: Fields): Totals {
    if f.reference.Some? then OneNode else Plus(Plus(OneNode, BodyCost(write, f)), DefinitionsCost(f))
  }

  // ---------- Acceptance ----------

  function SchemaRules(write: Writer, root: Json): Rules<Json> {
    Rules((v: Json) => v.JObject? && LegalFields(write, root, FieldsOf(v)),
          (v: Json) => if v.JObject? then FieldsCost(write, FieldsOf(v)) else Zero,
          (v: Json) => if v.JObject? then Inside(FieldsOf(v)) else [])
  }

  const SchemaLimits := Limits(MAX_DEPTH, Totals(MAX_NODES, MAX_PROPERTIES, MAX_STRING_CHARS, MAX_ENUM_VALUES))

  predicate RootAllowed(schema: Json) {
    schema.JObject? && Find(schema.members, "type") == Some(JString("object")) && Find(schema.members, "anyOf").None?
  }

  /** The root is an object schema; every subschema is legal, within ten levels, and the totals within the budgets. */
  predicate Strict(write: Writer, schema: Json) {
    RootAllowed(schema) && Acceptable(SchemaRules(write, schema), SchemaLimits, schema)
  }

  // ---------- The worklist check ----------

  function Add(t: Totals, more: Totals): Option<Totals> {
    if Within(SchemaLimits, Plus(t, more)) then Some(Plus(t, more)) else None
  }

  lemma {:induction false} NameCharsPrefix(ms: Members, i: nat)
    requires i < |ms|
    ensures NameChars(ms[..i + 1]) == NameChars(ms[..i]) + |ms[i].0| && NameChars(ms[..i + 1]) <= NameChars(ms)
    decreases |ms| - i
  {
    assert ms[..i + 1][..i] == ms[..i];
    if i + 1 < |ms| {
      NameCharsPrefix(ms, i + 1);
    } else {
      assert ms[..i + 1] == ms;
    }
  }

  /** Counts member names one by one, stopping at the limit. */
  method CountNames(ms: Members, totals: Totals) returns (r: Option<Totals>)
    requires Within(SchemaLimits, totals)
    ensures r == Add(totals, Totals(0, 0, NameChars(ms), 0))
  {
    var t := totals;
    for i := 0 to |ms|
      invariant t == Plus(totals, Totals(0, 0, NameChars(ms[..i]), 0)) && Within(SchemaLimits, t)
    {
      NameCharsPrefix(ms, i);
      var next := Add(t, Totals(0, 0, |ms[i].0|, 0));
      if next.None? {
        return None;
      }
      t := next.value;
    }
    assert ms[..|ms|] == ms;
    r := Some(t);
  }

  lemma {:induction false} WrittenCharsPrefix(write: Writer, vs: seq<Json>, i: nat)
    requires i < |vs|
    ensures WrittenChars(write, vs[..i + 1]) == WrittenChars(write, vs[..i]) + |write(vs[i])|
    ensures WrittenChars(write, vs[..i + 1]) <= WrittenChars(write, vs)
    ensures TextChars(vs[..i + 1]) == TextChars(vs[..i]) + (if vs[i].JString? then |vs[i].s| else 0)
    decreases |vs| - i
  {
    assert vs[..i + 1][..i] == vs[..i];
    if i + 1 < |vs| {
      WrittenCharsPrefix(write, vs, i + 1);
    } else {
      assert vs[..i + 1] == vs;
    }
  }

  /** Checks enum values one by one: their types, that no two are written alike, and the limits. */
  method CheckEnum(write: Writer, vs: seq<Json>, kinds: seq<Kind>, totals: Totals) returns (r: Option<Totals>)
    requires Within(SchemaLimits, totals)
    ensures r.Some? <==> LegalEnum(write, vs, kinds) && Within(SchemaLimits, Plus(totals, EnumCost(write, vs)))
    ensures r.Some? ==> r.value == Plus(totals, EnumCost(write, vs))
  {
    var counted := Add(totals, Totals(0, 0, 0, |vs|));
    if vs == [] || counted.None? {
      return None;
    }
    var t, text, seen: set<string> := counted.value, 0, {};
    for i := 0 to |vs|
      invariant t == Plus(totals, Totals(0, 0, WrittenChars(write, vs[..i]), |vs|)) && Within(SchemaLimits, t)
      invariant text == TextChars(vs[..i])
      invariant AllSeen(write, vs, kinds, i, seen)
    {
      WrittenCharsPrefix(write, vs, i);
      SeenNext(write, vs, kinds, i, seen);
      var written := write(vs[i]);
      text := text + if vs[i].JString? then |vs[i].s| else 0;
      var next := Add(t, Totals(0, 0, |written|, 0));
      if !MatchesAny(vs[i], kinds) || written in seen || next.None? {
        return None;
      }
      seen, t := seen + {written}, next.value;
    }
    assert vs[..|vs|] == vs;
    SeenAll(write, vs, kinds, seen);
    if |vs| > LARGE_ENUM && text > MAX_LARGE_ENUM_CHARS {
      return None;
    }
    r := Some(t);
  }

  /** The first i values match their types and are written differently, as `seen`. */
  ghost predicate AllSeen(write: Writer, vs: seq<Json>, kinds: seq<Kind>, i: nat, seen: set<string>)
    requires i <= |vs|
  {
    && seen == (set k | 0 <= k < i :: write(vs[k]))
    && (forall k | 0 <= k < i :: MatchesAny(vs[k], kinds))
    && (forall j, k | 0 <= j < k < i :: write(vs[j]) != write(vs[k]))
  }

  lemma SeenNext(write: Writer, vs: seq<Json>, kinds: seq<Kind>, i: nat, seen: set<string>)
    requires i < |vs| && AllSeen(write, vs, kinds, i, seen)
    ensures
      if MatchesAny(vs[i], kinds) && write(vs[i]) !in seen then AllSeen(write, vs, kinds, i + 1, seen + {write(vs[i])})
      else !LegalEnum(write, vs, kinds)
  {
    if write(vs[i]) in seen {
      var k :| 0 <= k < i && write(vs[k]) == write(vs[i]);
      assert WriteAll(write, vs)[k] == WriteAll(write, vs)[i];
    }
  }

  lemma SeenAll(write: Writer, vs: seq<Json>, kinds: seq<Kind>, seen: set<string>)
    requires AllSeen(write, vs, kinds, |vs|, seen)
    ensures (forall i | 0 <= i < |vs| :: MatchesAny(vs[i], kinds)) && Distinct(WriteAll(write, vs))
  {
  }

  /** An object schema: closed, every property required once; its properties are counted. */
  method CheckObject(f: Fields, totals: Totals) returns (r: Option<Totals>)
    requires Within(SchemaLimits, totals)
    ensures r == if LegalObject(f) then Add(totals, ObjectCost(f)) else None
  {
    var properties := MembersOf(f.properties);
    if !IsObject(f.properties) || f.additional != Some(JBool(false)) {
      return None;
    }
    var counted := Add(totals, Totals(0, |properties|, 0, 0));
    if counted.None? || !IsArray(f.required) || !AllStrings(ItemsOf(f.required)) {
      return None;
    }
    var required := Strings(ItemsOf(f.required));
    var names := set name | name in required;
    DistinctIffAllCounted(required);
    if |names| != |required| || |names| != |properties|
       || exists i | 0 <= i < |properties| :: properties[i].0 !in names {
      return None;
    }
    r := CountNames(properties, counted.value);
  }

  lemma {:induction false} DistinctIffAllCounted(ss: seq<string>)
    ensures |(set s | s in ss)| == |ss| <==> Distinct(ss)
    ensures |(set s | s in ss)| <= |ss|
  {
    if ss != [] {
      var short, last := ss[..|ss| - 1], ss[|ss| - 1];
      DistinctIffAllCounted(short);
      assert (set s | s in ss) == (set s | s in short) + {last};
      DistinctSnoc(short, last);
      assert ss == short + [last];
    }
  }

  lemma DistinctSnoc(ss: seq<string>, last: string)
    ensures Distinct(ss + [last]) <==> Distinct(ss) && last !in ss
  {
    var all := ss + [last];
    if Distinct(all) {
      assert forall i | 0 <= i < |ss| :: all[i] == ss[i] && ss[i] != all[|ss|];
    }
  }

  lemma AddTwice(t: Totals, a: Totals, b: Totals)
    ensures Add(t, Plus(a, b)) == if Add(t, a).None? then None else Add(Add(t, a).value, b)
    ensures Add(t, Zero) == if Within(SchemaLimits, t) then Some(t) else None
  {
  }

  method CheckProperties(f: Fields, totals: Totals) returns (r: Option<Totals>)
    requires Within(SchemaLimits, totals)
    ensures r == if LegalProperties(f) then Add(totals, PropertiesCost(f)) else None
  {
    r := Some(totals);
    if HasKind(f, ObjectKind) {
      r := CheckObject(f, totals);
    }
  }

  method CheckValues(write: Writer, f: Fields, kinds: seq<Kind>, totals: Totals) returns (r: Option<Totals>)
    requires Within(SchemaLimits, totals)
    ensures r == if LegalValues(write, f, kinds) then Add(totals, EnumCost(write, ItemsOf(f.values))) else None
  {
    if f.values.None? {
      return Some(totals);
    }
    if !IsArray(f.values) {
      return None;
    }
    r := CheckEnum(write, ItemsOf(f.values), kinds, totals);
  }

  method CheckConstant(write: Writer, f: Fields, kinds: seq<Kind>, totals: Totals) returns (r: Option<Totals>)
    requires Within(SchemaLimits, totals)
    ensures r == if LegalConstant(f, kinds) then Add(totals, ConstantCost(write, f)) else None
  {
    if f.constant.None? {
      return Some(totals);
    }
    if !MatchesAny(f.constant.value, kinds) {
      return None;
    }
    r := Add(totals, Totals(0, 0, |write(f.constant.value)|, 0));
  }

  method CheckTyped(write: Writer, f: Fields, totals: Totals) returns (r: Option<Totals>)
    requires Within(SchemaLimits, totals)
    ensures r == if LegalTyped(write, f) then Add(totals, TypedCost(write, f)) else None
  {
    if Kinds(f.kind).None? {
      return None;
    }
    var kinds := Kinds(f.kind).value;
    ghost var values := EnumCost(write, ItemsOf(f.values));
    AddTwice(totals, Plus(PropertiesCost(f), values), ConstantCost(write, f));
    AddTwice(totals, PropertiesCost(f), values);
    r := CheckProperties(f, totals);
    if r.None? || !Consistent(f) {
      return None;
    }
    r := CheckValues(write, f, kinds, r.value);
    if r.None? {
      return None;
    }
    r := CheckConstant(write, f, kinds, r.value);
  }

  method CheckBody(write: Writer, f: Fields, totals: Totals) returns (r: Option<Totals>)
    requires Within(SchemaLimits, totals)
    ensures r == if LegalBody(write, f) then Add(totals, BodyCost(write, f)) else None
  {
    if f.branches.Some? {
      r := if LegalUnion(f) then Some(totals) else None;
    } else {
      r := CheckTyped(write, f, totals);
    }
  }

  method CheckDefinitions(f: Fields, totals: Totals) returns (r: Option<Totals>)
    requires Within(SchemaLimits, totals)
    ensures r == if LegalDefinitions(f) then Add(totals, DefinitionsCost(f)) else None
  {
    r := Some(totals);
    if f.definitions.Some? {
      if !IsObject(f.definitions) {
        return None;
      }
      r := CountNames(MembersOf(f.definitions), totals);
    }
  }

  /** One step of the worklist: the subschema's own rules, what it adds, and what to visit next. */
  method Visit(write: Writer, root: Json, f: Fields, totals: Totals) returns (r: Option<(seq<Json>, Totals)>)
    requires Within(SchemaLimits, totals)
    ensures r == if LegalFields(write, root, f) && Within(SchemaLimits, Plus(totals, FieldsCost(write, f)))
                 then Some((Inside(f), Plus(totals, FieldsCost(write, f)))) else None
  {
    var counted := Add(totals, OneNode);
    if f.reference.Some? {
      if counted.None? || !LegalReference(root, f) {
        return None;
      }
      return Some(([], counted.value));
    }
    AddTwice(totals, Plus(OneNode, BodyCost(write, f)), DefinitionsCost(f));
    AddTwice(totals, OneNode, BodyCost(write, f));
    if counted.None? || (f.description.Some? && !f.description.value.JString?) {
      return None;
    }
    counted := CheckBody(write, f, counted.value);
    if counted.None? {
      return None;
    }
    counted := CheckDefinitions(f, counted.value);
    if counted.None? {
      return None;
    }
    r := Some((Inside(f), counted.value));
  }

  /** The check accepts exactly the schemas that are strict when read recursively. */
  method ValidateStrictSchema(write: Writer, schema: Json) returns (valid: bool)
    ensures valid <==> Strict(write, schema)
  {
    if !RootAllowed(schema) {
      return false;
    }
    valid := CheckTree(write, schema);
  }

  method CheckTree(write: Writer, schema: Json) returns (valid: bool)
    ensures valid <==> Acceptable(SchemaRules(write, schema), SchemaLimits, schema)
  {
    ghost var rules := SchemaRules(write, schema);
    var stack, totals := [(schema, 1)], Zero;
    StartOfWork(rules, schema);
    while stack != []
      invariant Within(SchemaLimits, totals)
      invariant Acceptable(rules, SchemaLimits, schema) <==> Remaining(rules, SchemaLimits, stack, totals)
      decreases MAX_NODES - totals.nodes
    {
      var next := VisitTop(write, schema, stack, totals);
      if next.None? {
        return false;
      }
      stack, totals := next.value.0, next.value.1;
    }
    return true;
  }

  /** Visits the top of the stack, or finds the rest of it unacceptable. */
  method VisitTop(write: Writer, root: Json, stack: Work<Json>, totals: Totals) returns (next: Option<(Work<Json>, Totals)>)
    requires stack != [] && Within(SchemaLimits, totals)
    ensures
      var rules := SchemaRules(write, root);
      match next
      case None => !Remaining(rules, SchemaLimits, stack, totals)
      case Some((stack', totals')) =>
        && (Remaining(rules, SchemaLimits, stack, totals) <==> Remaining(rules, SchemaLimits, stack', totals'))
        && Within(SchemaLimits, totals') && totals'.nodes == totals.nodes + 1
  {
    ghost var rules := SchemaRules(write, root);
    var last := |stack| - 1;
    var (v, depth) := stack[last];
    VisitAnyEntry(rules, SchemaLimits, stack, totals, last);
    VisitLast(rules, stack);
    if depth > MAX_DEPTH || !v.JObject? {
      return None;
    }
    var f := FieldsOf(v);
    RulesOf(write, root, v);
    var visited := Visit(write, root, f, totals);
    if visited.None? {
      NeverRemaining(rules, Visited(rules, stack, last), Plus(totals, rules.cost(v)));
      return None;
    }
    next := Some((stack[..last] + At(visited.value.0, depth + 1), visited.value.1));
  }

  lemma RulesOf(write: Writer, root: Json, v: Json)
    requires v.JObject?
    ensures
      var rules, f := SchemaRules(write, root), FieldsOf(v);
      && rules.legal(v) == LegalFields(write, root, f) && rules.cost(v) == FieldsCost(write, f)
      && rules.children(v) == Inside(f) && rules.cost(v).nodes == 1
  {
  }

  lemma NeverRemaining(rules: Rules<Json>, work: Work<Json>, totals: Totals)
    ensures !Within(SchemaLimits, totals) ==> !Remaining(rules, SchemaLimits, work, totals)
  {
    if Remaining(rules, SchemaLimits, work, totals) {
      TotalsOnlyGrow(SchemaLimits, totals, WorkCost(rules, SchemaLimits, work));
    }
  }

  lemma StartOfWork(rules: Rules<Json>, schema: Json)
    ensures Acceptable(rules, SchemaLimits, schema) <==> Remaining(rules, SchemaLimits, [(schema, 1)], Zero)
  {
    WorkCostOne(rules, SchemaLimits, schema, 1);
    assert [(schema, 1)][0] == (schema, 1);
  }

  lemma VisitLast(rules: Rules<Json>, stack: Work<Json>)
    requires stack != []
    ensures
      var last := |stack| - 1;
      Visited(rules, stack, last) == stack[..last] + At(rules.children(stack[last].0), stack[last].1 + 1)
  {
    assert stack[|stack|..] == [];
  }
}
