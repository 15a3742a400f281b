/** Wire-field-name derivation: the list of JSON keys `encoding/json` would
    use for a struct type, read from the type's declared shape rather than by
    reflection. The struct shape is a datatype of field descriptors. */
module Fields {
  import opened Wrappers
  import opened Json

  /** The kinds of Go type the derivation tells apart. Every concrete kind
      other than a struct or a pointer (int, string, slice, map, ...) is
      `Other`; interface types are not modelled. */
  datatype GoType =
    | Struct(fields: seq<Field>)
    | Pointer(elem: GoType)
    | Other(kind: string)

  /** A struct field as `reflect.StructField` shows it: its Go name, whether
      it is exported, whether it is embedded (anonymous), its type, and
      `Tag.Get("json")`, which is "" when the tag has no json key. */
  datatype Field = Field(name: string, exported: bool, anonymous: bool, typ: GoType, jsonTag: string)

  const PanicText: string := "structFields: T must be a struct or pointer to struct"

  /** The tag up to, not including, its first comma. */
  function TagName(tag: string): (n: string)
    ensures |n| <= |tag| && n == tag[..|n|]
    ensures ',' !in n
    ensures |n| < |tag| ==> tag[|n|] == ','
  {
    if |tag| == 0 || tag[0] == ',' then "" else [tag[0]] + TagName(tag[1..])
  }

  /** A tag without a comma is its own name; options after a comma are dropped. */
  lemma {:induction false} TagNameOfOptions(name: string, options: string)
    requires ',' !in name
    ensures TagName(name + "," + options) == name
  {
    var tag := name + "," + options;
    if |name| > 0 {
      assert name[0] in name;
      assert tag[1..] == name[1..] + "," + options;
      TagNameOfOptions(name[1..], options);
      assert name == [name[0]] + name[1..];
    }
  }

  /** The name a field that is not flattened contributes, if any: skipped for
      a "-" tag, the tag name otherwise, the Go name when that is empty, and
      nothing when the name is still "" or "-". */
  function WireName(f: Field): (r: Option<string>)
    ensures r.Some? ==> r.value != "" && r.value != "-"
    ensures f.jsonTag == "-" ==> r.None?
    ensures f.jsonTag != "-" && TagName(f.jsonTag) != "" && TagName(f.jsonTag) != "-" ==> r == Some(TagName(f.jsonTag))
    ensures f.jsonTag != "-" && TagName(f.jsonTag) == "" && f.name != "" && f.name != "-" ==> r == Some(f.name)
    ensures f.jsonTag != "-" && TagName(f.jsonTag) == "-" ==> r.None?
    ensures f.jsonTag != "-" && TagName(f.jsonTag) == "" && (f.name == "" || f.name == "-") ==> r.None?
  {
    if f.jsonTag == "-" then None
    else
      var tagName := TagName(f.jsonTag);
      var name := if tagName == "" then f.name else tagName;
      if name == "" || name == "-" then None else Some(name)
  }

  /** A tag whose name part is "-" but which carries options, such as
      `json:"-,omitempty"`, is not the bare "-" skip; the field is still
      dropped, because its name is "-". */
  lemma DashWithOptionsSkipped()
    ensures WireName(Field("X", true, false, Other("int"), "-,omitempty")) == None
  {
    TagNameOfOptions("-", "omitempty");
  }

  /** Whether a field is followed into: an exported, embedded struct. */
  predicate Flattened(f: Field) {
    f.exported && f.anonymous && f.typ.Struct?
  }

  /** `collectJSONFields` over a struct's fields, in declaration order. */
  function Collect(fields: seq<Field>): (names: seq<string>)
    ensures forall i :: 0 <= i < |names| ==> names[i] != "" && names[i] != "-"
    decreases fields
  {
    if |fields| == 0 then [] else FieldNames(fields[0]) + Collect(fields[1..])
  }

  /** The names one field contributes. The exportedness check comes first,
      then an embedded struct is flattened in place before any tag is read. */
  function FieldNames(f: Field): (names: seq<string>)
    ensures forall i :: 0 <= i < |names| ==> names[i] != "" && names[i] != "-"
    ensures !f.exported ==> names == []
    ensures !Flattened(f) ==> |names| <= 1
    decreases f
  {
    if !f.exported then []
    else if f.anonymous && f.typ.Struct? then Collect(f.typ.fields)
    else
      match WireName(f)
      case None => []
      case Some(n) => [n]
  }

  /** `structJSONFields[T]`: a pointer is dereferenced once, anything but a
      struct then panics, and the names are gathered into a slice that stays
      nil when no field contributes. */
  function StructJSONFields(t: GoType): (r: Result<Slice<string>, string>)
    ensures r.Failure? <==> !(t.Struct? || (t.Pointer? && t.elem.Struct?))
    ensures r.Failure? ==> r.error == PanicText
    ensures t.Struct? ==> r == Success(if Collect(t.fields) == [] then Nil else Slice(Collect(t.fields)))
    ensures t.Pointer? ==> r == StructJSONFields(t.elem) || r.Failure?
  {
    var s := if t.Pointer? then t.elem else t;
    if !s.Struct? then Failure(PanicText)
    else
      var names := Collect(s.fields);
      Success(if names == [] then Nil else Slice(names))
  }

  // ---------------------------------------------------------------------
  // Reference definition: flatten first, then name each leaf.

  /** The leaf fields of a struct: exported fields, with embedded structs
      replaced in place by their own leaves. */
  function Leaves(fields: seq<Field>): (ls: seq<Field>)
    ensures forall i :: 0 <= i < |ls| ==> ls[i].exported && !Flattened(ls[i])
    decreases fields
  {
    if |fields| == 0 then []
    else
      var f := fields[0];
      (if !f.exported then [] else if Flattened(f) then Leaves(f.typ.fields) else [f])
      + Leaves(fields[1..])
  }

  /** The names of a list of leaves, skipping those without one. */
  function Named(leaves: seq<Field>): seq<string> {
    if |leaves| == 0 then []
    else
      (match WireName(leaves[0]) case None => [] case Some(n) => [n]) + Named(leaves[1..])
  }

  lemma {:induction false} NamedAppend(a: seq<Field>, b: seq<Field>)
    ensures Named(a + b) == Named(a) + Named(b)
  {
    if |a| > 0 {
      assert (a + b)[1..] == a[1..] + b;
      NamedAppend(a[1..], b);
    } else {
      assert a + b == b;
    }
  }

  lemma {:induction false} NamedLength(leaves: seq<Field>)
    ensures |Named(leaves)| <= |leaves|
  {
    if |leaves| > 0 {
      NamedLength(leaves[1..]);
    }
  }

  /** `Collect` is exactly "flatten, then name each leaf in order". */
  lemma {:induction false} CollectIsNamedLeaves(fields: seq<Field>)
    ensures Collect(fields) == Named(Leaves(fields))
    decreases fields
  {
    if |fields| > 0 {
      var f := fields[0];
      FieldIsNamedLeaves(f);
      CollectIsNamedLeaves(fields[1..]);
      NamedAppend(if !f.exported then [] else if Flattened(f) then Leaves(f.typ.fields) else [f],
                  Leaves(fields[1..]));
    }
  }

  lemma {:induction false} FieldIsNamedLeaves(f: Field)
    ensures FieldNames(f) == Named(if !f.exported then [] else if Flattened(f) then Leaves(f.typ.fields) else [f])
    decreases f
  {
    if f.exported && Flattened(f) {
      CollectIsNamedLeaves(f.typ.fields);
    } else if f.exported {
      assert Named([f]) == (match WireName(f) case None => [] case Some(n) => [n]) + Named([]);
    }
  }

  /** At most one name per leaf field, in leaf order. */
  lemma AtMostOneNamePerLeaf(fields: seq<Field>)
    ensures |Collect(fields)| <= |Leaves(fields)|
  {
    CollectIsNamedLeaves(fields);
    NamedLength(Leaves(fields));
  }

  /** Collecting a struct split in two collects each part in turn, so an
      embedded struct's names appear exactly where it is declared. */
  lemma {:induction false} CollectAppend(a: seq<Field>, b: seq<Field>)
    ensures Collect(a + b) == Collect(a) + Collect(b)
  {
    if |a| > 0 {
      assert (a + b)[1..] == a[1..] + b;
      CollectAppend(a[1..], b);
    } else {
      assert a + b == b;
    }
  }

  lemma CollectCons(f: Field, rest: seq<Field>)
    ensures Collect([f] + rest) == FieldNames(f) + Collect(rest)
  {
    assert ([f] + rest)[1..] == rest;
  }

  lemma CollectSingle(f: Field)
    ensures Collect([f]) == FieldNames(f)
  {
    CollectCons(f, []);
    assert [f] + [] == [f];
  }

  lemma EmbeddedFlattenedInPlace(before: seq<Field>, embedded: Field, after: seq<Field>)
    requires Flattened(embedded)
    ensures Collect(before + [embedded] + after)
            == Collect(before) + Collect(embedded.typ.fields) + Collect(after)
  {
    CollectAppend(before + [embedded], after);
    CollectAppend(before, [embedded]);
    assert Collect([embedded]) == FieldNames(embedded) + Collect([]);
  }

  /** A named (not embedded) field's type is never looked into: only its
      own tag and name matter. */
  lemma NamedFieldTypeIrrelevant(f: Field, t: GoType)
    requires !f.anonymous
    ensures FieldNames(f) == FieldNames(f.(typ := t))
  {
  }

  /** An embedded struct's own tag is never read. */
  lemma EmbeddedTagIgnored(f: Field, tag: string)
    requires Flattened(f)
    ensures FieldNames(f) == FieldNames(f.(jsonTag := tag))
  {
  }

  /** A flat struct (nothing embedded) in which every field is exported and
      tagged "name,options" yields exactly those names, in order. */
  lemma {:induction false} FlatTaggedStruct(fields: seq<Field>, names: seq<string>)
    requires |fields| == |names|
    requires forall i :: 0 <= i < |fields| ==> fields[i].exported && !fields[i].anonymous
    requires forall i :: 0 <= i < |names| ==> names[i] != "" && names[i] != "-" && ',' !in names[i]
    requires forall i :: 0 <= i < |fields| ==> fields[i].jsonTag == names[i] + ",omitempty"
    ensures Collect(fields) == names
  {
    if |fields| > 0 {
      TaggedFieldName(fields[0], names[0]);
      FlatTaggedStruct(fields[1..], names[1..]);
      CollectCons(fields[0], fields[1..]);
      assert fields == [fields[0]] + fields[1..];
      assert names == [names[0]] + names[1..];
    }
  }

  lemma TaggedFieldName(f: Field, name: string)
    requires f.exported && !f.anonymous
    requires name != "" && name != "-" && ',' !in name
    requires f.jsonTag == name + ",omitempty"
    ensures FieldNames(f) == [name]
  {
    assert name + ",omitempty" == name + "," + "omitempty";
    TagNameOfOptions(name, "omitempty");
    assert |f.jsonTag| > 1;
  }

  // ---------------------------------------------------------------------
  // The cases of the package's unit test.


  const FooType: GoType := Struct([Field("Foo", true, false, Other("string"), "foo"),
                                   Field("Bar", true, false, Other("int"), "bar")])

  lemma FooNames()
    ensures Collect(FooType.fields) == ["foo", "bar"]
  {
    var a, b := FooType.fields[0], FooType.fields[1];
    assert TagName("foo") == "foo";
    assert TagName("bar") == "bar";
    CollectSingle(b);
    CollectCons(a, [b]);
    assert FooType.fields == [a] + [b];
  }

  lemma TwoFields()
    ensures StructJSONFields(FooType) == Success(Slice(["foo", "bar"]))
  {
    FooNames();
  }

  lemma NotAStruct()
    ensures StructJSONFields(Other("int")).Failure?
    ensures StructJSONFields(Pointer(Pointer(FooType))).Failure?
  {
  }

  lemma PointerToStruct()
    ensures StructJSONFields(Pointer(FooType)) == StructJSONFields(FooType)
  {
  }

  lemma EmbeddedStruct()
    ensures StructJSONFields(Struct([Field("Foo", true, true, FooType, ""),
                                     Field("Baz", true, false, Other("bool"), "baz"),
                                     Field("Bas", true, false, Other("int"), "bas")]))
            == Success(Slice(["foo", "bar", "baz", "bas"]))
  {
    var f := Field("Foo", true, true, FooType, "");
    var z := Field("Baz", true, false, Other("bool"), "baz");
    var s := Field("Bas", true, false, Other("int"), "bas");
    FooNames();
    assert FieldNames(f) == ["foo", "bar"];
    BazBasNames();
    CollectCons(f, [z, s]);
    assert [f, z, s] == [f] + [z, s];
    assert Collect([f, z, s]) == ["foo", "bar", "baz", "bas"];
  }

  lemma BazBasNames()
    ensures Collect([Field("Baz", true, false, Other("bool"), "baz"),
                     Field("Bas", true, false, Other("int"), "bas")]) == ["baz", "bas"]
  {
    var z := Field("Baz", true, false, Other("bool"), "baz");
    var s := Field("Bas", true, false, Other("int"), "bas");
    assert TagName("baz") == "baz";
    assert TagName("bas") == "bas";
    assert FieldNames(z) == ["baz"];
    assert FieldNames(s) == ["bas"];
    CollectSingle(s);
    CollectCons(z, [s]);
    assert [z, s] == [z] + [s];
  }

  lemma UnexportedField()
    ensures StructJSONFields(Struct([Field("Foo", true, false, Other("string"), "foo"),
                                     Field("bar", false, false, Other("int"), "")]))
            == Success(Slice(["foo"]))
  {
    var a := Field("Foo", true, false, Other("string"), "foo");
    var b := Field("bar", false, false, Other("int"), "");
    assert TagName("foo") == "foo";
    assert FieldNames(a) == ["foo"];
    assert FieldNames(b) == [];
    CollectSingle(b);
    CollectCons(a, [b]);
    assert [a, b] == [a] + [b];
    assert Collect([a, b]) == ["foo"];
  }

  lemma WithoutTag()
    ensures StructJSONFields(Struct([Field("Foo", true, false, Other("string"), "")]))
            == Success(Slice(["Foo"]))
  {
    var f := Field("Foo", true, false, Other("string"), "");
    assert TagName("") == "";
    CollectSingle(f);
  }

  lemma NestedStruct()
    ensures StructJSONFields(Struct([Field("Abc", true, false, FooType, "abc")]))
            == Success(Slice(["abc"]))
  {
    assert TagName("abc") == "abc";
    CollectSingle(Field("Abc", true, false, FooType, "abc"));
  }
}
