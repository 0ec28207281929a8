/** The gate every payload crosses on its way to or from an isolated plugin host. */
module JsonGate {
  import opened Models

  const MAX_PUBLIC_DEPTH: nat := 8
  const MAX_PUBLIC_ITEMS: nat := 256
  const MAX_PUBLIC_STRING: nat := 8192
  const MAX_PUBLIC_KEY: nat := 128

  const SENSITIVE_KEY_PARTS: seq<string> :=
    ["authorization", "cookie", "credential", "password", "passwd", "private_key", "secret", "token"]

  datatype Key = TextKey(text: string) | OtherKey

  datatype Field = Field(key: Key, value: Json)

  datatype Json =
    | Null
    | Bool(b: bool)
    | Int(n: int)
    | Float(finite: bool)
    | Text(s: string)
    | List(items: seq<Json>)
    | Object(fields: seq<Field>)
    | Unsupported

  datatype GateError =
    | TooDeep | NotFinite | OversizedString | TooManyItems | TooManyFields | InvalidKey | SensitiveField | BadValue

  // ---------- the check ----------

  predicate Within(part: string, s: string) {
    |part| <= |s| && (s[..|part|] == part || (s != "" && Within(part, s[1..])))
  }

  /** `lower` is Python's `str.lower`, which is not just the ASCII one. */
  predicate Sensitive(lower: string -> string, key: string) {
    exists i :: 0 <= i < |SENSITIVE_KEY_PARTS| && Within(SENSITIVE_KEY_PARTS[i], lower(key))
  }

  /** None when accepted; otherwise the first complaint in traversal order. */
  function Validate(lower: string -> string, v: Json, depth: nat): Option<GateError>
    decreases v, 1
  {
    if depth > MAX_PUBLIC_DEPTH then Some(TooDeep)
    else
      match v
      case Null => None
      case Bool(_) => None
      case Int(_) => None
      case Float(finite) => if finite then None else Some(NotFinite)
      case Text(s) => if |s| > MAX_PUBLIC_STRING then Some(OversizedString) else None
      case List(items) =>
        if |items| > MAX_PUBLIC_ITEMS then Some(TooManyItems) else ValidateItems(lower, items, depth + 1)
      case Object(fields) =>
        if |fields| > MAX_PUBLIC_ITEMS then Some(TooManyFields) else ValidateFields(lower, fields, depth + 1)
      case Unsupported => Some(BadValue)
  }

  function ValidateItems(lower: string -> string, items: seq<Json>, depth: nat): Option<GateError>
    decreases items, 0
  {
    if items == [] then None
    else
      var first := Validate(lower, items[0], depth);
      if first.Some? then first else ValidateItems(lower, items[1..], depth)
  }

  function ValidateFields(lower: string -> string, fields: seq<Field>, depth: nat): Option<GateError>
    decreases fields, 0
  {
    if fields == [] then None
    else
      var first := ValidateField(lower, fields[0], depth);
      if first.Some? then first else ValidateFields(lower, fields[1..], depth)
  }

  function ValidateField(lower: string -> string, f: Field, depth: nat): Option<GateError>
    decreases f, 0
  {
    if f.key.OtherKey? || |f.key.text| > MAX_PUBLIC_KEY then Some(InvalidKey)
    else if Sensitive(lower, f.key.text) then Some(SensitiveField)
    else Validate(lower, f.value, depth)
  }

  // ---------- what acceptance means ----------

  function Children(v: Json): (c: seq<Json>)
    ensures v.List? ==> c == v.items
    ensures v.Object? ==> |c| == |v.fields| && forall i | 0 <= i < |c| :: c[i] == v.fields[i].value
    ensures !v.List? && !v.Object? ==> c == []
  {
    match v
    case List(items) => items
    case Object(fields) => seq(|fields|, i requires 0 <= i < |fields| => fields[i].value)
    case _ => []
  }

  predicate Splits(s: string, before: string, part: string, after: string) {
    s == before + part + after
  }

  /** Somewhere in the lower-cased key stands one of the eight words. */
  ghost predicate NamesSecret(lower: string -> string, key: string) {
    exists before, part, after ::
      && part in ["authorization", "cookie", "credential", "password", "passwd", "private_key", "secret", "token"]
      && Splits(lower(key), before, part, after)
  }

  lemma {:induction false} WithinSplits(part: string, s: string)
    ensures Within(part, s) <==> exists before, after :: Splits(s, before, part, after)
  {
    if Within(part, s) {
      if s[..|part|] == part {
        assert Splits(s, [], part, s[|part|..]);
      } else {
        WithinSplits(part, s[1..]);
        var before, after :| Splits(s[1..], before, part, after);
        assert Splits(s, [s[0]] + before, part, after);
      }
    }
    if before, after :| Splits(s, before, part, after) {
      if before == [] {
        assert s[..|part|] == part;
      } else {
        WithinSplits(part, s[1..]);
        assert Splits(s[1..], before[1..], part, after);
      }
    }
  }

  /** The containment test finds exactly the keys that have one of the words in them. */
  lemma SensitiveExactly(lower: string -> string, key: string)
    ensures Sensitive(lower, key) <==> NamesSecret(lower, key)
  {
    forall i | 0 <= i < |SENSITIVE_KEY_PARTS|
      ensures Within(SENSITIVE_KEY_PARTS[i], lower(key))
              <==> exists before, after :: Splits(lower(key), before, SENSITIVE_KEY_PARTS[i], after)
    {
      WithinSplits(SENSITIVE_KEY_PARTS[i], lower(key));
    }
    if NamesSecret(lower, key) {
      var before, part, after :| part in SENSITIVE_KEY_PARTS && Splits(lower(key), before, part, after);
      var i :| 0 <= i < |SENSITIVE_KEY_PARTS| && SENSITIVE_KEY_PARTS[i] == part;
      assert Within(SENSITIVE_KEY_PARTS[i], lower(key));
    }
  }

  ghost predicate LegalKey(lower: string -> string, k: Key) {
    k.TextKey? && |k.text| <= 128 && !NamesSecret(lower, k.text)
  }

  /** One node on its own, whatever is below it. */
  ghost predicate LegalNode(lower: string -> string, v: Json) {
    match v
    case Float(finite) => finite
    case Text(s) => |s| <= 8192
    case List(items) => |items| <= 256
    case Object(fields) =>
      |fields| <= 256 && forall i | 0 <= i < |fields| :: LegalKey(lower, fields[i].key)
    case Unsupported => false
    case _ => true
  }

  /** `n` is reached from `v` by going down `path`, an index into the children at each level. */
  ghost predicate At(v: Json, path: seq<nat>, n: Json)
    decreases |path|
  {
    if path == [] then n == v
    else path[0] < |Children(v)| && At(Children(v)[path[0]], path[1..], n)
  }

  /** Every node at or below `v` is legal and lies at most `room` levels down. */
  ghost predicate Acceptable(lower: string -> string, v: Json, room: int) {
    forall path, n | At(v, path, n) :: |path| <= room && LegalNode(lower, n)
  }

  /** Acceptable unfolds: the node is legal and so is everything one level down. */
  lemma AcceptableUnfolds(lower: string -> string, v: Json, room: nat)
    ensures Acceptable(lower, v, room) <==>
              LegalNode(lower, v) && forall i | 0 <= i < |Children(v)| :: Acceptable(lower, Children(v)[i], room - 1)
  {
    if Acceptable(lower, v, room) {
      assert At(v, [], v);
      forall i | 0 <= i < |Children(v)| ensures Acceptable(lower, Children(v)[i], room - 1) {
        forall path, n | At(Children(v)[i], path, n) ensures |path| <= room - 1 && LegalNode(lower, n) {
          assert ([i] + path)[1..] == path;
          assert At(v, [i] + path, n);
        }
      }
    }
    if LegalNode(lower, v) && forall i | 0 <= i < |Children(v)| :: Acceptable(lower, Children(v)[i], room - 1) {
      forall path, n | At(v, path, n) ensures |path| <= room && LegalNode(lower, n) {
        if path != [] {
          var child := Children(v)[path[0]];
          assert At(child, path[1..], n);
          assert Acceptable(lower, child, room - 1);
        }
      }
    }
  }

  /** Below the depth limit nothing is acceptable. */
  lemma NoRoom(lower: string -> string, v: Json)
    ensures !Acceptable(lower, v, -1)
  {
    assert At(v, [], v);
  }

  lemma {:induction false} ItemsAccepted(lower: string -> string, items: seq<Json>, depth: nat)
    ensures ValidateItems(lower, items, depth).None? <==>
              forall i | 0 <= i < |items| :: Validate(lower, items[i], depth).None?
  {
    if items != [] {
      ItemsAccepted(lower, items[1..], depth);
      assert forall i | 0 < i < |items| :: items[i] == items[1..][i - 1];
      assert forall i | 0 <= i < |items| - 1 :: items[1..][i] == items[i + 1];
    }
  }

  lemma {:induction false} FieldsAccepted(lower: string -> string, fields: seq<Field>, depth: nat)
    ensures ValidateFields(lower, fields, depth).None? <==>
              forall i | 0 <= i < |fields| :: LegalKey(lower, fields[i].key) && Validate(lower, fields[i].value, depth).None?
  {
    if fields != [] {
      FieldsAccepted(lower, fields[1..], depth);
      if fields[0].key.TextKey? { SensitiveExactly(lower, fields[0].key.text); }
      assert forall i | 0 < i < |fields| :: fields[i] == fields[1..][i - 1];
      assert forall i | 0 <= i < |fields| - 1 :: fields[1..][i] == fields[i + 1];
    }
  }

  /** One level of the check: the node itself, then every child one level deeper. */
  lemma ValidateUnfolds(lower: string -> string, v: Json, depth: nat)
    requires depth <= MAX_PUBLIC_DEPTH
    ensures Validate(lower, v, depth).None? <==>
              LegalNode(lower, v) && forall i | 0 <= i < |Children(v)| :: Validate(lower, Children(v)[i], depth + 1).None?
  {
    if v.List? {
      ItemsAccepted(lower, v.items, depth + 1);
      assert forall i | 0 <= i < |v.items| :: v.items[i] == Children(v)[i];
    } else if v.Object? {
      FieldsAccepted(lower, v.fields, depth + 1);
      assert forall i | 0 <= i < |v.fields| :: v.fields[i].value == Children(v)[i];
    }
  }

  lemma {:induction false} GateAtDepth(lower: string -> string, v: Json, depth: nat)
    requires depth <= MAX_PUBLIC_DEPTH + 1
    ensures Validate(lower, v, depth).None? <==> Acceptable(lower, v, MAX_PUBLIC_DEPTH - depth)
    decreases MAX_PUBLIC_DEPTH + 1 - depth
  {
    if depth > MAX_PUBLIC_DEPTH {
      NoRoom(lower, v);
    } else {
      AcceptableUnfolds(lower, v, MAX_PUBLIC_DEPTH - depth);
      ValidateUnfolds(lower, v, depth);
      forall i | 0 <= i < |Children(v)|
        ensures Validate(lower, Children(v)[i], depth + 1).None?
                <==> Acceptable(lower, Children(v)[i], MAX_PUBLIC_DEPTH - depth - 1)
      {
        GateAtDepth(lower, Children(v)[i], depth + 1);
      }
    }
  }

  /** The gate accepts exactly the values whose every node is legal and at most eight levels down. */
  lemma GateIsExact(lower: string -> string, v: Json)
    ensures Validate(lower, v, 0).None? <==> Acceptable(lower, v, 8)
  {
    GateAtDepth(lower, v, 0);
  }

  // ---------- why a value is refused ----------

  /** A key that names a secret, at whatever depth, keeps the value out. */
  lemma SecretKeyIsRefused(lower: string -> string, v: Json, path: seq<nat>, n: Json, i: nat,
                           before: string, part: string, after: string)
    requires At(v, path, n) && n.Object? && i < |n.fields| && n.fields[i].key.TextKey?
    requires part in ["authorization", "cookie", "credential", "password", "passwd", "private_key", "secret", "token"]
    requires lower(n.fields[i].key.text) == before + part + after
    ensures Validate(lower, v, 0).Some?
  {
    GateIsExact(lower, v);
    assert Splits(lower(n.fields[i].key.text), before, part, after);
    assert !LegalKey(lower, n.fields[i].key);
  }

  /** Node `n`, `depth` levels down, is what the complaint says. */
  ghost predicate Shows(lower: string -> string, e: GateError, n: Json, depth: nat) {
    match e
    case TooDeep => depth > 8
    case NotFinite => n == Float(false)
    case OversizedString => n.Text? && |n.s| > 8192
    case TooManyItems => n.List? && |n.items| > 256
    case TooManyFields => n.Object? && |n.fields| > 256
    case InvalidKey =>
      n.Object? && exists i :: 0 <= i < |n.fields| && (n.fields[i].key.OtherKey? || |n.fields[i].key.text| > 128)
    case SensitiveField =>
      n.Object? && exists i :: 0 <= i < |n.fields| && n.fields[i].key.TextKey? && NamesSecret(lower, n.fields[i].key.text)
    case BadValue => n.Unsupported?
  }

  /** Somewhere at or below `v` is a node that shows it. */
  ghost predicate Witnessed(lower: string -> string, e: GateError, v: Json, depth: nat) {
    exists path, n :: At(v, path, n) && Shows(lower, e, n, depth + |path|)
  }

  lemma WitnessedBelow(lower: string -> string, e: GateError, v: Json, depth: nat, i: nat)
    requires i < |Children(v)| && Witnessed(lower, e, Children(v)[i], depth + 1)
    ensures Witnessed(lower, e, v, depth)
  {
    var path, n :| At(Children(v)[i], path, n) && Shows(lower, e, n, depth + 1 + |path|);
    assert ([i] + path)[1..] == path;
    assert At(v, [i] + path, n) && depth + |[i] + path| == depth + 1 + |path|;
  }

  lemma WitnessedHere(lower: string -> string, e: GateError, v: Json, depth: nat)
    requires Shows(lower, e, v, depth)
    ensures Witnessed(lower, e, v, depth)
  {
    assert At(v, [], v);
  }

  lemma {:induction false} FirstBadItem(lower: string -> string, items: seq<Json>, depth: nat) returns (i: nat)
    requires ValidateItems(lower, items, depth).Some?
    ensures i < |items| && Validate(lower, items[i], depth) == ValidateItems(lower, items, depth)
  {
    if Validate(lower, items[0], depth).Some? {
      i := 0;
    } else {
      var k := FirstBadItem(lower, items[1..], depth);
      i := k + 1;
    }
  }

  lemma {:induction false} FirstBadField(lower: string -> string, fields: seq<Field>, depth: nat) returns (i: nat)
    requires ValidateFields(lower, fields, depth).Some?
    ensures i < |fields| && ValidateField(lower, fields[i], depth) == ValidateFields(lower, fields, depth)
  {
    if ValidateField(lower, fields[0], depth).Some? {
      i := 0;
    } else {
      var k := FirstBadField(lower, fields[1..], depth);
      i := k + 1;
    }
  }

  lemma {:induction false} WitnessedAtDepth(lower: string -> string, v: Json, depth: nat)
    requires depth <= MAX_PUBLIC_DEPTH + 1 && Validate(lower, v, depth).Some?
    ensures Witnessed(lower, Validate(lower, v, depth).value, v, depth)
    decreases MAX_PUBLIC_DEPTH + 1 - depth
  {
    var e := Validate(lower, v, depth).value;
    if depth <= MAX_PUBLIC_DEPTH && v.List? && |v.items| <= MAX_PUBLIC_ITEMS {
      var i := FirstBadItem(lower, v.items, depth + 1);
      assert v.items[i] == Children(v)[i];
      WitnessedAtDepth(lower, Children(v)[i], depth + 1);
      WitnessedBelow(lower, e, v, depth, i);
    } else if depth <= MAX_PUBLIC_DEPTH && v.Object? && |v.fields| <= MAX_PUBLIC_ITEMS {
      var i := FirstBadField(lower, v.fields, depth + 1);
      WitnessedInField(lower, v, depth, i, e);
    } else {
      WitnessedHere(lower, e, v, depth);
    }
  }

  lemma {:induction false} WitnessedInField(lower: string -> string, v: Json, depth: nat, i: nat, e: GateError)
    requires depth <= MAX_PUBLIC_DEPTH && v.Object? && i < |v.fields|
    requires ValidateField(lower, v.fields[i], depth + 1) == Some(e)
    ensures Witnessed(lower, e, v, depth)
    decreases MAX_PUBLIC_DEPTH + 1 - depth, 0
  {
    var f := v.fields[i];
    if f.key.OtherKey? || |f.key.text| > MAX_PUBLIC_KEY {
      WitnessedHere(lower, e, v, depth);
    } else if Sensitive(lower, f.key.text) {
      SensitiveExactly(lower, f.key.text);
      WitnessedHere(lower, e, v, depth);
    } else {
      assert f.value == Children(v)[i];
      WitnessedAtDepth(lower, Children(v)[i], depth + 1);
      WitnessedBelow(lower, e, v, depth, i);
    }
  }

  /**
   Every complaint is true of some node: in particular a value is called sensitive only for a
   key that has one of the words in it, and invalid only for a key that is no text or too long.
   */
  lemma RefusalIsWitnessed(lower: string -> string, v: Json, e: GateError)
    requires Validate(lower, v, 0) == Some(e)
    ensures exists path, n :: At(v, path, n) && Shows(lower, e, n, |path|)
  {
    WitnessedAtDepth(lower, v, 0);
    var path, n :| At(v, path, n) && Shows(lower, e, n, 0 + |path|);
  }

  // ---------- how much can get through ----------

  function Nodes(v: Json): nat
    decreases v, 1
  {
    match v
    case List(items) => 1 + ItemNodes(items)
    case Object(fields) => 1 + FieldNodes(fields)
    case _ => 1
  }

  function ItemNodes(items: seq<Json>): nat
    decreases items, 0
  {
    if items == [] then 0 else Nodes(items[0]) + ItemNodes(items[1..])
  }

  function FieldNodes(fields: seq<Field>): nat
    decreases fields, 0
  {
    if fields == [] then 0 else NodesIn(fields[0]) + FieldNodes(fields[1..])
  }

  function NodesIn(f: Field): nat
    decreases f, 0
  {
    Nodes(f.value)
  }

  /** A full 256-ary tree of the given height: (256^(height+1) - 1) / 255 nodes. */
  function FullTree(height: nat): nat {
    if height == 0 then 1 else 1 + MAX_PUBLIC_ITEMS * FullTree(height - 1)
  }

  function Pow256(k: nat): nat {
    if k == 0 then 1 else 256 * Pow256(k - 1)
  }

  lemma {:induction false} FullTreeClosedForm(height: nat)
    ensures 255 * FullTree(height) == Pow256(height + 1) - 1
  {
    if height > 0 { FullTreeClosedForm(height - 1); }
  }

  lemma {:induction false} ItemNodesBound(items: seq<Json>, each: nat)
    requires forall i | 0 <= i < |items| :: Nodes(items[i]) <= each
    ensures ItemNodes(items) <= |items| * each
  {
    if items != [] {
      var rest := items[1..];
      forall i | 0 <= i < |rest| ensures Nodes(rest[i]) <= each { assert rest[i] == items[i + 1]; }
      ItemNodesBound(rest, each);
      OneMore(|rest|, each);
    }
  }

  lemma {:induction false} FieldNodesBound(fields: seq<Field>, each: nat)
    requires forall i | 0 <= i < |fields| :: Nodes(fields[i].value) <= each
    ensures FieldNodes(fields) <= |fields| * each
  {
    if fields != [] {
      var rest := fields[1..];
      forall i | 0 <= i < |rest| ensures Nodes(rest[i].value) <= each { assert rest[i] == fields[i + 1]; }
      FieldNodesBound(rest, each);
      OneMore(|rest|, each);
    }
  }

  lemma OneMore(n: nat, each: nat)
    ensures (n + 1) * each == n * each + each
  {
  }

  lemma Scaled(n: nat, each: nat)
    requires n <= MAX_PUBLIC_ITEMS
    ensures n * each <= MAX_PUBLIC_ITEMS * each
  {
  }

  lemma {:induction false} AcceptableIsSmall(lower: string -> string, v: Json, room: nat)
    requires Acceptable(lower, v, room)
    ensures Nodes(v) <= FullTree(room)
    decreases room
  {
    AcceptableUnfolds(lower, v, room);
    if room == 0 {
      if Children(v) != [] { NoRoom(lower, Children(v)[0]); }
    } else {
      forall i | 0 <= i < |Children(v)| ensures Nodes(Children(v)[i]) <= FullTree(room - 1) {
        AcceptableIsSmall(lower, Children(v)[i], room - 1);
      }
      if v.List? {
        forall i | 0 <= i < |v.items| ensures Nodes(v.items[i]) <= FullTree(room - 1) {
          assert v.items[i] == Children(v)[i];
        }
        ItemNodesBound(v.items, FullTree(room - 1));
        Scaled(|v.items|, FullTree(room - 1));
      } else if v.Object? {
        forall i | 0 <= i < |v.fields| ensures Nodes(v.fields[i].value) <= FullTree(room - 1) {
          assert v.fields[i].value == Children(v)[i];
        }
        FieldNodesBound(v.fields, FullTree(room - 1));
        Scaled(|v.fields|, FullTree(room - 1));
      }
    }
  }

  /** An accepted value has at most (256^9 - 1) / 255 nodes. */
  lemma AcceptedIsBounded(lower: string -> string, v: Json)
    requires Validate(lower, v, 0).None?
    ensures 255 * Nodes(v) <= Pow256(9) - 1
  {
    GateIsExact(lower, v);
    AcceptableIsSmall(lower, v, MAX_PUBLIC_DEPTH);
    FullTreeClosedForm(MAX_PUBLIC_DEPTH);
  }

  // ---------- the bound is attained ----------

  function Copies(v: Json, n: nat): (c: seq<Json>)
    ensures |c| == n && forall i | 0 <= i < n :: c[i] == v
  {
    seq(n, _ => v)
  }

  function Tree(height: nat): Json {
    if height == 0 then Null else List(Copies(Tree(height - 1), MAX_PUBLIC_ITEMS))
  }

  lemma {:induction false} EqualItemNodes(items: seq<Json>, v: Json)
    requires forall i | 0 <= i < |items| :: items[i] == v
    ensures ItemNodes(items) == |items| * Nodes(v)
  {
    if items != [] {
      var rest := items[1..];
      forall i | 0 <= i < |rest| ensures rest[i] == v { assert rest[i] == items[i + 1]; }
      EqualItemNodes(rest, v);
      OneMore(|rest|, Nodes(v));
    }
  }

  lemma {:induction false} TreeCount(height: nat)
    ensures Nodes(Tree(height)) == FullTree(height)
  {
    if height > 0 {
      TreeCount(height - 1);
      EqualItemNodes(Copies(Tree(height - 1), MAX_PUBLIC_ITEMS), Tree(height - 1));
    }
  }

  lemma {:induction false} TreePasses(lower: string -> string, height: nat, depth: nat)
    requires height + depth <= MAX_PUBLIC_DEPTH
    ensures Validate(lower, Tree(height), depth).None?
  {
    if height > 0 {
      var below := Tree(height - 1);
      TreePasses(lower, height - 1, depth + 1);
      ItemsAccepted(lower, Copies(below, MAX_PUBLIC_ITEMS), depth + 1);
    }
  }

  /** The full tree is accepted, so no smaller bound holds. */
  lemma BoundIsAttained(lower: string -> string)
    ensures Validate(lower, Tree(MAX_PUBLIC_DEPTH), 0).None?
    ensures 255 * Nodes(Tree(MAX_PUBLIC_DEPTH)) == Pow256(9) - 1
  {
    TreePasses(lower, MAX_PUBLIC_DEPTH, 0);
    TreeCount(MAX_PUBLIC_DEPTH);
    FullTreeClosedForm(MAX_PUBLIC_DEPTH);
  }
}
