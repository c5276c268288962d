/**
 A tool call's arguments against the schema the tool was listed with: strings that miss an enum only by case, dash or
 blank are read as the one member they fold onto, wherever the schema's properties and items lead.
 */
module ToolArgs {
  import opened Wrappers
  import opened Text

  /** What json.loads gives; an object's fields in order, each key once. */
  datatype Value =
    | Null
    | Bool(b: bool)
    | Num(n: real)
    | Str(s: string)
    | Arr(items: seq<Value>)
    | Obj(fields: seq<Field>)

  datatype Field = Field(key: string, value: Value)

  /** Lower case, whatever the language makes of it. */
  type Lower = string -> string

  // Objects

  /** Where the key is, or the length. */
  function Find(fields: seq<Field>, key: string): (i: nat)
    ensures i <= |fields| && (i < |fields| ==> fields[i].key == key) && forall j | 0 <= j < i :: fields[j].key != key
  {
    if fields == [] || fields[0].key == key then 0 else Find(fields[1..], key) + 1
  }

  predicate Distinct(fields: seq<Field>) {
    forall i, j | 0 <= i < j < |fields| :: fields[i].key != fields[j].key
  }

  /** Every object in it is a dict: no key twice. */
  predicate Proper(v: Value) {
    match v
    case Arr(items) => forall i | 0 <= i < |items| :: Proper(items[i])
    case Obj(fields) => Distinct(fields) && forall i | 0 <= i < |fields| :: Proper(fields[i].value)
    case _ => true
  }

  const ENUM := "enum"
  const PROPERTIES := "properties"
  const ITEMS := "items"

  // The fold

  function Replaced(s: string, from: char, to: char): string {
    seq(|s|, i requires 0 <= i < |s| => if s[i] == from then to else s[i])
  }

  function Fold(lower: Lower, s: string): string {
    Replaced(Replaced(lower(Strip(s)), '-', '_'), ' ', '_')
  }

  predicate Strings(members: seq<Value>) { forall i | 0 <= i < |members| :: members[i].Str? }

  /** The members s folds onto, in order. */
  function Matches(lower: Lower, s: string, members: seq<Value>): (r: seq<Value>)
    requires Strings(members)
  {
    if members == [] then []
    else
      var last := members[|members| - 1];
      Matches(lower, s, members[..|members| - 1]) + if Fold(lower, last.s) == Fold(lower, s) then [last] else []
  }

  function EnumMember(lower: Lower, v: Value, members: seq<Value>): Value {
    if !v.Str? || v in members || !Strings(members) then v
    else
      var matches := Matches(lower, v.s, members);
      if |matches| == 1 then matches[0] else v
  }

  /** The value with its near misses replaced, field by field and item by item. */
  function Normalized(lower: Lower, value: Value, schema: Value): Value
    decreases schema
  {
    if !schema.Obj? then value
    else
      var keys := schema.fields;
      var e, p, t := Find(keys, ENUM), Find(keys, PROPERTIES), Find(keys, ITEMS);
      if e < |keys| && keys[e].value.Arr? then EnumMember(lower, value, keys[e].value.items)
      else if value.Obj? && p < |keys| && keys[p].value.Obj? then
        var props := keys[p].value.fields;
        Obj(seq(|value.fields|, i requires 0 <= i < |value.fields| =>
          var f := value.fields[i];
          var k := Find(props, f.key);
          if k < |props| then Field(f.key, Normalized(lower, f.value, props[k].value)) else f))
      else if value.Arr? && t < |keys| && keys[t].value.Obj? then
        Arr(seq(|value.items|, i requires 0 <= i < |value.items| => Normalized(lower, value.items[i], keys[t].value)))
      else value
  }

  // Paths: what the walk reaches

  datatype Hop = Key(key: string) | Index(i: nat)

  function Child(v: Value, hop: Hop): Option<Value> {
    match hop
    case Key(key) =>
      if v.Obj? && Find(v.fields, key) < |v.fields| then Some(v.fields[Find(v.fields, key)].value) else None
    case Index(i) => if v.Arr? && i < |v.items| then Some(v.items[i]) else None
  }

  /** The value at a path. */
  function At(v: Value, path: seq<Hop>): Option<Value>
    decreases |path|
  {
    if path == [] then Some(v)
    else
      match Child(v, path[0])
      case None => None
      case Some(c) => At(c, path[1..])
  }

  function SchemaChild(schema: Value, hop: Hop): Option<Value> {
    if EnumOf(schema).Some? then None
    else
      match hop
      case Key(_) => (match Child(schema, Key(PROPERTIES)) case Some(props) => Child(props, hop) case None => None)
      case Index(_) =>
        (match Child(schema, Key(ITEMS)) case Some(items) => if items.Obj? then Some(items) else None case None => None)
  }

  /** The schema that governs a path: through properties and items, never past an enum. */
  function SchemaAt(schema: Value, path: seq<Hop>): Option<Value>
    decreases |path|
  {
    if path == [] then Some(schema)
    else
      match SchemaChild(schema, path[0])
      case None => None
      case Some(c) => SchemaAt(c, path[1..])
  }

  /** The enum of a schema, when it is a list. */
  function EnumOf(schema: Value): Option<seq<Value>> {
    match Child(schema, Key(ENUM))
    case Some(Arr(members)) => Some(members)
    case _ => None
  }

  /** v is a string outside an enum of strings, exactly one of which it folds onto: that one. */
  ghost predicate Misses(lower: Lower, v: Value, schema: Value, member: Value) {
    && v.Str? && EnumOf(schema).Some?
    && var ms := EnumOf(schema).value;
      && v !in ms && Strings(ms)
      && exists i | 0 <= i < |ms| :: ms[i] == member && OnlyMatch(lower, v.s, ms, i)
  }

  predicate OnlyMatch(lower: Lower, s: string, members: seq<Value>, i: nat)
    requires i < |members| && Strings(members)
  {
    forall j | 0 <= j < |members| :: Fold(lower, members[j].s) == Fold(lower, s) <==> j == i
  }

  // One string

  lemma {:induction false} MatchesAre(lower: Lower, s: string, ms: seq<Value>)
    requires Strings(ms)
    ensures Matches(lower, s, ms) == [] <==> forall j | 0 <= j < |ms| :: Fold(lower, ms[j].s) != Fold(lower, s)
    ensures |Matches(lower, s, ms)| == 1 <==> exists i | 0 <= i < |ms| :: OnlyMatch(lower, s, ms, i)
    ensures forall i | 0 <= i < |ms| && OnlyMatch(lower, s, ms, i) :: Matches(lower, s, ms) == [ms[i]]
  {
    hide Fold;
    if ms != [] {
      var init, k := ms[..|ms| - 1], |ms| - 1;
      MatchesAre(lower, s, init);
      if Fold(lower, ms[k].s) == Fold(lower, s) {
        if Matches(lower, s, init) == [] {
          assert OnlyMatch(lower, s, ms, k);
        } else {
          assert forall i | 0 <= i < |ms| :: !OnlyMatch(lower, s, ms, i);
        }
      } else {
        forall i | 0 <= i < k ensures OnlyMatch(lower, s, ms, i) <==> OnlyMatch(lower, s, init, i) {
          if OnlyMatch(lower, s, init, i) {
            assert forall j | 0 <= j < k :: init[j] == ms[j];
          }
        }
        assert !OnlyMatch(lower, s, ms, k);
      }
    }
  }

  /** A string becomes a member exactly when it misses the enum by its writing and folds onto that member alone. */
  lemma LeafMeaning(lower: Lower, v: Value, schema: Value)
    ensures v.Str? ==> Normalized(lower, v, schema).Str?
    ensures forall m: Value ::
              Misses(lower, v, schema, m) ==> Normalized(lower, v, schema) == m && m in EnumOf(schema).value
    ensures v.Str? && Normalized(lower, v, schema) != v ==> Misses(lower, v, schema, Normalized(lower, v, schema))
    ensures EnumOf(schema).Some? && !v.Str? ==> Normalized(lower, v, schema) == v
  {
    hide OnlyMatch;
    if EnumOf(schema).Some? {
      var ms := EnumOf(schema).value;
      if v.Str? && v !in ms && Strings(ms) {
        MatchesAre(lower, v.s, ms);
        if |Matches(lower, v.s, ms)| == 1 {
          var i :| 0 <= i < |ms| && OnlyMatch(lower, v.s, ms, i);
        }
      }
    }
  }

  /** A dash, a blank and an underscore are one character to the fold. */
  predicate Alike(a: char, b: char) { a == b || (a in {'-', '_', ' '} && b in {'-', '_', ' '}) }

  /** Two strings differ only by margins, case, dash or blank. */
  predicate SameWriting(lower: Lower, a: string, b: string) {
    var x, y := lower(Strip(a)), lower(Strip(b));
    |x| == |y| && forall i | 0 <= i < |x| :: Alike(x[i], y[i])
  }

  /** That is exactly what the fold ignores. */
  lemma FoldsTogetherIff(lower: Lower, a: string, b: string)
    ensures Fold(lower, a) == Fold(lower, b) <==> SameWriting(lower, a, b)
  {
    var x, y, f, g := lower(Strip(a)), lower(Strip(b)), Fold(lower, a), Fold(lower, b);
    hide Strip;
    assert forall i | 0 <= i < |x| :: f[i] == if x[i] in {'-', '_', ' '} then '_' else x[i];
    assert forall i | 0 <= i < |y| :: g[i] == if y[i] in {'-', '_', ' '} then '_' else y[i];
    if |x| == |y| {
      assert f == g <==> forall i | 0 <= i < |x| :: f[i] == g[i];
    }
  }

  /** A string at an enum of strings that lacks it becomes the one member written alike; else it stays. */
  lemma WrittenAlike(lower: Lower, v: Value, schema: Value, m: nat)
    requires v.Str? && EnumOf(schema).Some? && v !in EnumOf(schema).value && Strings(EnumOf(schema).value)
    ensures var ms := EnumOf(schema).value;
      && (m < |ms| && SameWriting(lower, v.s, ms[m].s)
            && (forall j | 0 <= j < |ms| && j != m :: !SameWriting(lower, v.s, ms[j].s)) ==>
          Normalized(lower, v, schema) == ms[m])
      && (Normalized(lower, v, schema) == v || exists i | 0 <= i < |ms| ::
            ms[i] == Normalized(lower, v, schema) && SameWriting(lower, v.s, ms[i].s)
            && forall j | 0 <= j < |ms| && j != i :: !SameWriting(lower, v.s, ms[j].s))
  {
    hide Normalized, Fold, SameWriting;
    var ms := EnumOf(schema).value;
    forall i | 0 <= i < |ms|
      ensures OnlyMatch(lower, v.s, ms, i) <==>
        SameWriting(lower, v.s, ms[i].s) && forall j | 0 <= j < |ms| && j != i :: !SameWriting(lower, v.s, ms[j].s)
    {
      forall j | 0 <= j < |ms|
        ensures Fold(lower, ms[j].s) == Fold(lower, v.s) <==> SameWriting(lower, v.s, ms[j].s)
      {
        FoldsTogetherIff(lower, v.s, ms[j].s);
      }
    }
    LeafMeaning(lower, v, schema);
    if m < |ms| && OnlyMatch(lower, v.s, ms, m) { assert Misses(lower, v, schema, ms[m]); }
  }

  // The whole value

  lemma FindIs(fields: seq<Field>, key: string, i: nat)
    requires i <= |fields| && (i < |fields| ==> fields[i].key == key) && forall j | 0 <= j < i :: fields[j].key != key
    ensures Find(fields, key) == i
  {
  }

  lemma SameKeysSameFind(a: seq<Field>, b: seq<Field>, key: string)
    requires SameKeys(a, b)
    ensures Find(a, key) == Find(b, key)
  {
    var i := Find(a, key);
    assert forall j | 0 <= j < i :: b[j].key == a[j].key;
    FindIs(b, key, i);
  }

  predicate SameKeys(a: seq<Field>, b: seq<Field>) {
    |a| == |b| && forall i | 0 <= i < |a| :: a[i].key == b[i].key
  }

  /** One hop down: the child is normalized by the schema's child for that hop, or is left as it was. */
  lemma ChildMeaning(lower: Lower, v: Value, schema: Value, hop: Hop)
    ensures var after := Child(Normalized(lower, v, schema), hop);
      match Child(v, hop)
      case None => after == None
      case Some(x) =>
        match SchemaChild(schema, hop)
        case None => after == Some(x)
        case Some(sub) => after == Some(Normalized(lower, x, sub))
  {
    if EnumOf(schema).Some? {
      LeafMeaning(lower, v, schema);
    } else if v.Obj? {
      var r := Normalized(lower, v, schema);
      assert r.Obj? && SameKeys(v.fields, r.fields);
      if hop.Key? {
        SameKeysSameFind(v.fields, r.fields, hop.key);
      }
    }
  }

  /** What stands at a path afterwards is what stood there, normalized by the schema that governs the path. */
  lemma {:induction false} PathMeaning(lower: Lower, v: Value, schema: Value, path: seq<Hop>)
    ensures var after := At(Normalized(lower, v, schema), path);
      match At(v, path)
      case None => after == None
      case Some(x) =>
        match SchemaAt(schema, path)
        case None => after == Some(x)
        case Some(sub) => after == Some(Normalized(lower, x, sub))
    decreases |path|
  {
    if path != [] {
      hide Normalized;
      ChildMeaning(lower, v, schema, path[0]);
      if Child(v, path[0]).Some? && SchemaChild(schema, path[0]).Some? {
        PathMeaning(lower, Child(v, path[0]).value, SchemaChild(schema, path[0]).value, path[1..]);
      }
    }
  }

  /** No string the walk reaches at an enum misses it by its writing alone. */
  ghost predicate Settled(lower: Lower, v: Value, schema: Value) {
    forall path: seq<Hop>, m: Value :: !MissesAt(lower, v, schema, path, m)
  }

  ghost predicate MissesAt(lower: Lower, v: Value, schema: Value, path: seq<Hop>, m: Value) {
    && At(v, path).Some? && SchemaAt(schema, path).Some?
    && Misses(lower, At(v, path).value, SchemaAt(schema, path).value, m)
  }

  lemma SettledChild(lower: Lower, v: Value, schema: Value, hop: Hop)
    requires Settled(lower, v, schema) && Child(v, hop).Some? && SchemaChild(schema, hop).Some?
    ensures Settled(lower, Child(v, hop).value, SchemaChild(schema, hop).value)
  {
    var x, sub := Child(v, hop).value, SchemaChild(schema, hop).value;
    forall path: seq<Hop>, m: Value ensures !MissesAt(lower, x, sub, path, m) {
      var whole := [hop] + path;
      assert whole[1..] == path;
      assert At(v, whole) == At(x, path) && SchemaAt(schema, whole) == SchemaAt(sub, path);
      assert !MissesAt(lower, v, schema, whole, m);
    }
  }

  lemma DistinctFind(fields: seq<Field>, i: nat)
    requires Distinct(fields) && i < |fields|
    ensures Find(fields, fields[i].key) == i
  {
    FindIs(fields, fields[i].key, i);
  }

  lemma {:induction false} SettledStays(lower: Lower, v: Value, schema: Value)
    requires Proper(v) && Settled(lower, v, schema)
    ensures Normalized(lower, v, schema) == v
    decreases v
  {
    if EnumOf(schema).Some? || v.Str? {
      assert !MissesAt(lower, v, schema, [], Normalized(lower, v, schema));
      LeafMeaning(lower, v, schema);
    } else if v.Obj? {
      forall i | 0 <= i < |v.fields| ensures ChildStays(lower, v, schema, Key(v.fields[i].key), v.fields[i].value) {
        DistinctFind(v.fields, i);
        if SchemaChild(schema, Key(v.fields[i].key)).Some? {
          SettledChild(lower, v, schema, Key(v.fields[i].key));
          SettledStays(lower, v.fields[i].value, SchemaChild(schema, Key(v.fields[i].key)).value);
        }
      }
      ObjectStays(lower, v, schema);
    } else if v.Arr? {
      forall i | 0 <= i < |v.items| ensures ChildStays(lower, v, schema, Index(i), v.items[i]) {
        if SchemaChild(schema, Index(i)).Some? {
          SettledChild(lower, v, schema, Index(i));
          SettledStays(lower, v.items[i], SchemaChild(schema, Index(i)).value);
        }
      }
      ArrayStays(lower, v, schema);
    }
  }

  predicate ChildStays(lower: Lower, v: Value, schema: Value, hop: Hop, x: Value) {
    SchemaChild(schema, hop).Some? ==> Normalized(lower, x, SchemaChild(schema, hop).value) == x
  }

  lemma ObjectStays(lower: Lower, v: Value, schema: Value)
    requires v.Obj? && EnumOf(schema).None?
    requires forall i | 0 <= i < |v.fields| :: ChildStays(lower, v, schema, Key(v.fields[i].key), v.fields[i].value)
    ensures Normalized(lower, v, schema) == v
  {
    var r := Normalized(lower, v, schema);
    assert r.Obj? && |r.fields| == |v.fields|;
    forall i | 0 <= i < |v.fields| ensures r.fields[i] == v.fields[i] {
      assert ChildStays(lower, v, schema, Key(v.fields[i].key), v.fields[i].value);
    }
    assert r.fields == v.fields;
  }

  lemma ArrayStays(lower: Lower, v: Value, schema: Value)
    requires v.Arr? && EnumOf(schema).None?
    requires forall i | 0 <= i < |v.items| :: ChildStays(lower, v, schema, Index(i), v.items[i])
    ensures Normalized(lower, v, schema) == v
  {
    var r := Normalized(lower, v, schema);
    assert r.Arr? && |r.items| == |v.items|;
    forall i | 0 <= i < |v.items| ensures r.items[i] == v.items[i] {
      assert ChildStays(lower, v, schema, Index(i), v.items[i]);
    }
    assert r.items == v.items;
  }

  /** A value comes back as it was exactly when no string the walk reaches misses its enum by its writing. */
  lemma UnchangedIff(lower: Lower, v: Value, schema: Value)
    requires Proper(v)
    ensures Normalized(lower, v, schema) == v <==> Settled(lower, v, schema)
  {
    hide Normalized, SchemaAt, Misses;
    if Normalized(lower, v, schema) == v {
      forall path: seq<Hop>, m: Value ensures !MissesAt(lower, v, schema, path, m) {
        if MissesAt(lower, v, schema, path, m) {
          PathMeaning(lower, v, schema, path);
          MissesOut(lower, At(v, path).value, SchemaAt(schema, path).value, m);
        }
      }
    } else if Settled(lower, v, schema) {
      SettledStays(lower, v, schema);
    }
  }

  lemma MissesOut(lower: Lower, x: Value, sub: Value, m: Value)
    requires Misses(lower, x, sub, m)
    ensures Normalized(lower, x, sub) != x
  {
    LeafMeaning(lower, x, sub);
  }

  /** Everything that could be read as a member has been: nothing in the result misses its enum any more. */
  lemma ResultIsSettled(lower: Lower, v: Value, schema: Value)
    ensures Settled(lower, Normalized(lower, v, schema), schema)
  {
    hide Normalized;
    forall path: seq<Hop>, m: Value ensures !MissesAt(lower, Normalized(lower, v, schema), schema, path, m) {
      PathMeaning(lower, v, schema, path);
      if At(v, path).Some? && SchemaAt(schema, path).Some? {
        NormalizedOnce(lower, At(v, path).value, SchemaAt(schema, path).value, m);
      }
    }
  }

  lemma NormalizedOnce(lower: Lower, x: Value, sub: Value, m: Value)
    ensures !Misses(lower, Normalized(lower, x, sub), sub, m)
  {
    hide Normalized, Fold;
    var y := Normalized(lower, x, sub);
    LeafMeaning(lower, x, sub);
    LeafMeaning(lower, y, sub);
  }

  // Shape

  /** Objects with the same keys, arrays of the same length, everything else the same but for what strings say. */
  predicate SameShape(a: Value, b: Value) {
    match a
    case Str(_) => b.Str?
    case Arr(items) => b.Arr? && |b.items| == |items| && forall i | 0 <= i < |items| :: SameShape(items[i], b.items[i])
    case Obj(fields) =>
      && b.Obj? && SameKeys(fields, b.fields)
      && forall i | 0 <= i < |fields| :: SameShape(fields[i].value, b.fields[i].value)
    case _ => b == a
  }

  lemma {:induction false} ShapeOfSelf(a: Value)
    ensures SameShape(a, a)
  {
    match a
    case Arr(items) => forall i | 0 <= i < |items| { ShapeOfSelf(items[i]); }
    case Obj(fields) => forall i | 0 <= i < |fields| { ShapeOfSelf(fields[i].value); }
    case _ =>
  }

  lemma {:induction false} ShapeIsKept(lower: Lower, v: Value, schema: Value)
    ensures SameShape(v, Normalized(lower, v, schema))
    decreases schema
  {
    ShapeOfSelf(v);
    if EnumOf(schema).Some? {
      LeafMeaning(lower, v, schema);
    } else if schema.Obj? {
      var keys := schema.fields;
      var p, t := Find(keys, PROPERTIES), Find(keys, ITEMS);
      if v.Obj? && p < |keys| && keys[p].value.Obj? {
        var props := keys[p].value.fields;
        var r := Normalized(lower, v, schema);
        assert r.Obj? && SameKeys(v.fields, r.fields);
        forall i | 0 <= i < |v.fields| ensures SameShape(v.fields[i].value, r.fields[i].value) {
          var k := Find(props, v.fields[i].key);
          ShapeOfSelf(v.fields[i].value);
          if k < |props| { ShapeIsKept(lower, v.fields[i].value, props[k].value); }
        }
      } else if v.Arr? && t < |keys| && keys[t].value.Obj? {
        forall i | 0 <= i < |v.items| { ShapeIsKept(lower, v.items[i], keys[t].value); }
      }
    }
  }

  /** Keys, lengths and order stay; nothing but strings changes; and a second pass changes nothing. */
  lemma NormalizedTwice(lower: Lower, v: Value, schema: Value)
    requires Proper(v)
    ensures var r := Normalized(lower, v, schema);
      SameShape(v, r) && Proper(r) && Normalized(lower, r, schema) == r
  {
    hide Normalized, Settled;
    var r := Normalized(lower, v, schema);
    ShapeIsKept(lower, v, schema);
    ShapeKeepsProper(v, r);
    ResultIsSettled(lower, v, schema);
    SettledStays(lower, r, schema);
  }

  lemma {:induction false} ShapeKeepsProper(a: Value, b: Value)
    requires Proper(a) && SameShape(a, b)
    ensures Proper(b)
  {
    match a
    case Arr(items) => forall i | 0 <= i < |items| { ShapeKeepsProper(items[i], b.items[i]); }
    case Obj(fields) => forall i | 0 <= i < |fields| { ShapeKeepsProper(fields[i].value, b.fields[i].value); }
    case _ =>
  }

  /** What becomes of each string of the value, wherever it stands. */
  lemma StringMeaning(lower: Lower, v: Value, schema: Value, path: seq<Hop>)
    requires At(v, path).Some? && At(v, path).value.Str?
    ensures var x, after := At(v, path).value, At(Normalized(lower, v, schema), path);
      && (after == Some(x) <==> forall m: Value :: !MissesAt(lower, v, schema, path, m))
      && (forall m: Value ::
            MissesAt(lower, v, schema, path, m) ==>
              after == Some(m) && m in EnumOf(SchemaAt(schema, path).value).value)
  {
    PathMeaning(lower, v, schema, path);
    hide Normalized, SchemaAt, At, Misses;
    if SchemaAt(schema, path).Some? {
      var x, sub := At(v, path).value, SchemaAt(schema, path).value;
      LeafMeaning(lower, x, sub);
      if m: Value :| MissesAt(lower, v, schema, path, m) {
        MissesOut(lower, x, sub, m);
      } else if Normalized(lower, x, sub) != x {
        assert MissesAt(lower, v, schema, path, Normalized(lower, x, sub));
      }
    }
  }

  // The code

  /** One field of the result. */
  function NormalField(lower: Lower, f: Field, props: seq<Field>): Field {
    var k := Find(props, f.key);
    if k < |props| then Field(f.key, Normalized(lower, f.value, props[k].value)) else f
  }

  lemma NormalizedObject(lower: Lower, value: Value, schema: Value, p: nat, out: seq<Field>)
    requires value.Obj? && schema.Obj? && EnumOf(schema).None?
    requires p == Find(schema.fields, PROPERTIES) && p < |schema.fields| && schema.fields[p].value.Obj?
    requires |out| == |value.fields|
    requires forall j | 0 <= j < |out| :: out[j] == NormalField(lower, value.fields[j], schema.fields[p].value.fields)
    ensures Normalized(lower, value, schema) == Obj(out)
  {
    var r := Normalized(lower, value, schema);
    assert r.Obj? && |r.fields| == |out|;
    assert forall j | 0 <= j < |out| :: r.fields[j] == out[j];
    assert r.fields == out;
  }

  lemma NormalizedArray(lower: Lower, value: Value, schema: Value, t: nat, out: seq<Value>)
    requires value.Arr? && schema.Obj? && EnumOf(schema).None?
    requires t == Find(schema.fields, ITEMS) && t < |schema.fields| && schema.fields[t].value.Obj?
    requires |out| == |value.items|
    requires forall j | 0 <= j < |out| :: out[j] == Normalized(lower, value.items[j], schema.fields[t].value)
    ensures Normalized(lower, value, schema) == Arr(out)
  {
    var r := Normalized(lower, value, schema);
    assert r.Arr? && |r.items| == |out|;
    assert forall j | 0 <= j < |out| :: r.items[j] == out[j];
    assert r.items == out;
  }

  /** _normalized; changed when it does not hand back the caller's own object. */
  method Normalize(lower: Lower, value: Value, schema: Value) returns (r: Value, changed: bool)
    requires Proper(value) && Proper(schema)
    ensures r == Normalized(lower, value, schema)
    ensures changed <==> r != value
    decreases schema, 1
  {
    r, changed := value, false;
    if !schema.Obj? { return; }
    var keys := schema.fields;
    var e, p, t := Find(keys, ENUM), Find(keys, PROPERTIES), Find(keys, ITEMS);
    if e < |keys| && keys[e].value.Arr? {
      r := EnumMember(lower, value, keys[e].value.items);
      changed := r != value;
    } else if value.Obj? && p < |keys| && keys[p].value.Obj? {
      assert Proper(keys[p].value);
      var out;
      out, changed := NormalizeFields(lower, value.fields, keys[p].value);
      NormalizedObject(lower, value, schema, p, out);
      if changed { r := Obj(out); }
    } else if value.Arr? && t < |keys| && keys[t].value.Obj? {
      var out;
      out, changed := NormalizeItems(lower, value.items, keys[t].value);
      NormalizedArray(lower, value, schema, t, out);
      if changed { r := Arr(out); }
    }
  }

  lemma ProperParts(fields: seq<Field>)
    requires Proper(Obj(fields))
    ensures Distinct(fields) && forall i | 0 <= i < |fields| :: Proper(fields[i].value)
  {
    assert fields == Obj(fields).fields;
  }

  lemma NormalFieldAt(lower: Lower, f: Field, props: seq<Field>, i: nat)
    requires i < |props| && Find(props, f.key) == i
    ensures NormalField(lower, f, props) == Field(f.key, Normalized(lower, f.value, props[i].value))
  {
  }

  lemma NormalFieldOutside(lower: Lower, f: Field, props: seq<Field>)
    requires Find(props, f.key) == |props|
    ensures NormalField(lower, f, props) == f
  {
  }

  method NormalizeFields(lower: Lower, fields: seq<Field>, props: Value) returns (out: seq<Field>, changed: bool)
    requires Proper(Obj(fields)) && props.Obj? && Proper(props)
    ensures |out| == |fields| && forall j | 0 <= j < |out| :: out[j] == NormalField(lower, fields[j], props.fields)
    ensures changed <==> out != fields
    decreases props, 0
  {
    hide Normalized, Proper, NormalField, Find, Distinct;
    ProperParts(fields);
    ProperParts(props.fields);
    out, changed := fields, false;
    for i := 0 to |props.fields|
      invariant |out| == |fields|
      invariant forall j | 0 <= j < |out| ::
                  out[j] ==
                    if Find(props.fields, fields[j].key) < i then NormalField(lower, fields[j], props.fields)
                    else fields[j]
      invariant changed <==> exists j | 0 <= j < |out| :: out[j] != fields[j]
    {
      var key, sub := props.fields[i].key, props.fields[i].value;
      DistinctFind(props.fields, i);
      var k := Find(fields, key);
      if k < |fields| {
        var now, differs := Normalize(lower, fields[k].value, sub);
        DistinctFind(fields, k);
        NormalFieldAt(lower, fields[k], props.fields, i);
        assert out[k] == fields[k];
        if differs {
          out, changed := out[k := Field(key, now)], true;
          assert out[k] != fields[k];
        }
      }
    }
    forall j | 0 <= j < |out| ensures out[j] == NormalField(lower, fields[j], props.fields) {
      if Find(props.fields, fields[j].key) == |props.fields| { NormalFieldOutside(lower, fields[j], props.fields); }
    }
  }

  method NormalizeItems(lower: Lower, items: seq<Value>, sub: Value) returns (out: seq<Value>, changed: bool)
    requires Proper(Arr(items)) && Proper(sub)
    ensures |out| == |items| && forall j | 0 <= j < |out| :: out[j] == Normalized(lower, items[j], sub)
    ensures changed <==> out != items
    decreases sub, 2
  {
    hide Normalized;
    out, changed := [], false;
    for i := 0 to |items|
      invariant |out| == i && forall j | 0 <= j < i :: out[j] == Normalized(lower, items[j], sub)
      invariant changed <==> exists j | 0 <= j < i :: out[j] != items[j]
    {
      assert Proper(items[i]) by { assert items == Arr(items).items; }
      var now, differs := Normalize(lower, items[i], sub);
      out := out + [now];
      changed := changed || differs;
    }
  }

  // One server's tools

  datatype Tool = Tool(name: string, schema: Option<Value>)

  /** The arguments a call goes on with: an object, read by the schema its tool was last listed with. */
  function Arguments(lower: Lower, schema: Option<Value>, arguments: Value): Value {
    var given := if arguments.Obj? then arguments else Obj([]);
    if schema.Some? && schema.value.Obj? then Normalized(lower, given, schema.value) else given
  }

  /** The last of the tools of that name. */
  function LastListed(tools: seq<Tool>, name: string): Option<Tool> {
    if tools == [] then None
    else if tools[|tools| - 1].name == name then Some(tools[|tools| - 1])
    else LastListed(tools[..|tools| - 1], name)
  }

  /** Of several tools listed under one name the last one's schema is the one in force. */
  lemma {:induction false} LastListedIs(tools: seq<Tool>, name: string, i: nat)
    requires i < |tools| && tools[i].name == name && forall j | i < j < |tools| :: tools[j].name != name
    ensures LastListed(tools, name) == Some(tools[i])
  {
    if i < |tools| - 1 {
      LastListedIs(tools[..|tools| - 1], name, i);
    }
  }

  lemma {:induction false} NeverListed(tools: seq<Tool>, name: string)
    requires forall t | t in tools :: t.name != name
    ensures LastListed(tools, name) == None
  {
    if tools != [] {
      NeverListed(tools[..|tools| - 1], name);
    }
  }

  /**
   A call of a listed tool goes on with each near miss folded: a string, at whatever path of its arguments, that the
   enum governing that path lacks but for one member written alike, is that member. An unlisted tool's call is left
   alone.
   */
  lemma CallIsFolded(lower: Lower, schema: Value, arguments: Value, path: seq<Hop>, v: Value, sub: Value, m: nat)
    requires schema.Obj? && arguments.Obj? && At(arguments, path) == Some(v) && SchemaAt(schema, path) == Some(sub)
    requires v.Str? && EnumOf(sub).Some? && v !in EnumOf(sub).value && Strings(EnumOf(sub).value)
    requires var ms := EnumOf(sub).value;
      m < |ms| && SameWriting(lower, v.s, ms[m].s)
      && forall j | 0 <= j < |ms| && j != m :: !SameWriting(lower, v.s, ms[j].s)
    ensures At(Arguments(lower, Some(schema), arguments), path) == Some(EnumOf(sub).value[m])
    ensures Arguments(lower, None, arguments) == arguments
  {
    PathMeaning(lower, arguments, schema, path);
    WrittenAlike(lower, v, sub, m);
    hide Normalized, SameWriting;
  }

  class ToolArgs {
    var schemas: map<string, Option<Value>>

    ghost predicate Valid()
      reads this
    {
      forall name | name in schemas && schemas[name].Some? :: Proper(schemas[name].value)
    }

    function SchemaOf(name: string): Option<Value>
      reads this
    {
      if name in schemas then schemas[name] else None
    }

    constructor ()
      ensures Valid() && forall name :: SchemaOf(name) == None
    {
      schemas := map[];
    }

    /** The record is what was listed now, and nothing of what was listed before. */
    method Listed(tools: seq<Tool>)
      requires forall t | t in tools && t.schema.Some? :: Proper(t.schema.value)
      modifies this
      ensures Valid()
      ensures forall name ::
        SchemaOf(name) == match LastListed(tools, name) case None => None case Some(t) => t.schema
    {
      schemas := map[];
      for i := 0 to |tools|
        invariant Valid()
        invariant forall name ::
                    SchemaOf(name) == match LastListed(tools[..i], name) case None => None case Some(t) => t.schema
      {
        assert tools[..i + 1][..i] == tools[..i];
        assert tools[i] in tools;
        schemas := schemas[tools[i].name := tools[i].schema];
      }
      assert tools[..|tools|] == tools;
    }

    /** check, the validator's verdict on the folded arguments given by valid. */
    method Check(lower: Lower, valid: (Value, Value) -> bool, name: string, arguments: Value)
      returns (r: Value, refused: bool)
      requires Valid() && Proper(arguments)
      ensures r == Arguments(lower, SchemaOf(name), arguments)
      ensures refused <==> SchemaOf(name).Some? && SchemaOf(name).value.Obj? && !valid(r, SchemaOf(name).value)
    {
      hide Normalized;
      r := if arguments.Obj? then arguments else Obj([]);
      refused := false;
      var schema := SchemaOf(name);
      if schema.Some? && schema.value.Obj? {
        var changed;
        r, changed := Normalize(lower, r, schema.value);
        refused := !valid(r, schema.value);
      }
    }
  }

  /** A call once accepted goes through the same way when its folded arguments are sent again. */
  lemma FoldedCallStands(lower: Lower, schema: Option<Value>, arguments: Value)
    requires Proper(arguments)
    ensures var r := Arguments(lower, schema, arguments); r.Obj? && Arguments(lower, schema, r) == r
  {
    hide Normalized;
    var given := if arguments.Obj? then arguments else Obj([]);
    if schema.Some? && schema.value.Obj? {
      NormalizedTwice(lower, given, schema.value);
    }
  }
}
