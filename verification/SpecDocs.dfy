/** Blanking the documentation of a contract specification: the recursion of the WASM optimizer over decoded JSON. */
module SpecDocs {
  datatype Field = Field(key: string, value: Json)

  /** A decoded JSON value. `Other` stands for numbers, booleans and null. */
  datatype Json = Object(fields: seq<Field>) | List(items: seq<Json>) | Text(text: string) | Other(literal: string)

  /** A field that is named `doc` and holds text. */
  predicate IsDoc(field: Field) {
    field.key == "doc" && field.value.Text?
  }

  function BlankDocs(node: Json): Json {
    match node
    case Object(fields) => Object(seq(|fields|, i requires 0 <= i < |fields| => BlankField(fields[i])))
    case List(items) => List(seq(|items|, i requires 0 <= i < |items| => BlankDocs(items[i])))
    case _ => node
  }

  function BlankField(field: Field): Field {
    Field(field.key, if IsDoc(field) then Text("") else BlankDocs(field.value))
  }

  /** Two values with the same shape, keys, order and leaves, except for the text of `doc` fields. */
  predicate SameButDocs(a: Json, b: Json) {
    match a
    case Object(fields) =>
      && b.Object? && |fields| == |b.fields|
      && forall i | 0 <= i < |fields| :: SameFieldButDocs(fields[i], b.fields[i])
    case List(items) =>
      && b.List? && |items| == |b.items|
      && forall i | 0 <= i < |items| :: SameButDocs(items[i], b.items[i])
    case _ => a == b
  }

  predicate SameFieldButDocs(a: Field, b: Field) {
    && a.key == b.key
    && if IsDoc(a) then b.value.Text? else !IsDoc(b) && SameButDocs(a.value, b.value)
  }

  /** No text is left in any `doc` field. */
  predicate DocFree(node: Json) {
    match node
    case Object(fields) => forall i | 0 <= i < |fields| :: FieldDocFree(fields[i])
    case List(items) => forall i | 0 <= i < |items| :: DocFree(items[i])
    case _ => true
  }

  predicate FieldDocFree(field: Field) {
    if IsDoc(field) then field.value.text == "" else DocFree(field.value)
  }

  /**
   Blanking takes away exactly the documentation: two values blank to the same
   result just when nothing else differs.
   */
  lemma {:induction false} BlankDocsExact(a: Json, b: Json)
    ensures BlankDocs(a) == BlankDocs(b) <==> SameButDocs(a, b)
    decreases a
  {
    match a
    case Object(fields) =>
      if b.Object? && |fields| == |b.fields| {
        ObjectDocsExact(fields, b.fields);
      } else {
        assert BlankDocs(b).Object? ==> |BlankDocs(b).fields| != |BlankDocs(a).fields|;
      }
    case List(items) =>
      if b.List? && |items| == |b.items| {
        ListDocsExact(items, b.items);
      } else {
        assert BlankDocs(b).List? ==> |BlankDocs(b).items| != |BlankDocs(a).items|;
      }
    case _ =>
  }

  lemma {:induction false} ObjectDocsExact(a: seq<Field>, b: seq<Field>)
    requires |a| == |b|
    ensures BlankDocs(Object(a)) == BlankDocs(Object(b)) <==> SameButDocs(Object(a), Object(b))
    decreases a
  {
    var x, y := BlankDocs(Object(a)).fields, BlankDocs(Object(b)).fields;
    forall i | 0 <= i < |a| ensures x[i] == y[i] <==> SameFieldButDocs(a[i], b[i]) {
      BlankFieldExact(a[i], b[i]);
    }
    assert SameButDocs(Object(a), Object(b)) ==> x == y;
    assert x == y ==> forall i | 0 <= i < |a| :: x[i] == y[i];
  }

  lemma {:induction false} ListDocsExact(a: seq<Json>, b: seq<Json>)
    requires |a| == |b|
    ensures BlankDocs(List(a)) == BlankDocs(List(b)) <==> SameButDocs(List(a), List(b))
    decreases a
  {
    var x, y := BlankDocs(List(a)).items, BlankDocs(List(b)).items;
    forall i | 0 <= i < |a| ensures x[i] == y[i] <==> SameButDocs(a[i], b[i]) {
      BlankDocsExact(a[i], b[i]);
    }
    assert SameButDocs(List(a), List(b)) ==> x == y;
    assert x == y ==> forall i | 0 <= i < |a| :: x[i] == y[i];
  }

  lemma {:induction false} BlankFieldExact(a: Field, b: Field)
    ensures BlankField(a) == BlankField(b) <==> SameFieldButDocs(a, b)
    decreases a
  {
    BlankDocsExact(a.value, b.value);
  }

  /** A blanked value carries no documentation and differs from the original in nothing else. */
  lemma {:induction false} BlankDocsClears(a: Json)
    ensures DocFree(BlankDocs(a)) && SameButDocs(a, BlankDocs(a))
    decreases a
  {
    match a
    case Object(fields) =>
      forall i | 0 <= i < |fields|
        ensures FieldDocFree(BlankField(fields[i])) && SameFieldButDocs(fields[i], BlankField(fields[i]))
      {
        BlankDocsClears(fields[i].value);
      }
    case List(items) =>
      forall i | 0 <= i < |items| ensures DocFree(BlankDocs(items[i])) && SameButDocs(items[i], BlankDocs(items[i])) {
        BlankDocsClears(items[i]);
      }
    case _ =>
  }

  /** Stripping an already stripped specification changes nothing; only documentation-free values are left alone. */
  lemma {:induction false} BlankedIsFixed(a: Json)
    ensures BlankDocs(BlankDocs(a)) == BlankDocs(a)
    ensures BlankDocs(a) == a ==> DocFree(a)
  {
    BlankDocsClears(a);
    BlankDocsExact(a, BlankDocs(a));
  }
}
