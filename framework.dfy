/**
 The small part of the plugin framework that the provider code relies on:
 tri-state attribute values, diagnostics and how they accumulate, and the
 declarations a schema is made of.
 */
module Framework {
  import opened Wrappers

  /** Go's int64. */
  newtype int64 = x: int | -0x8000_0000_0000_0000 <= x < 0x8000_0000_0000_0000

  type byte = bv8

  /** The value of one attribute (types.String, types.Int64, ...): explicitly
      absent, not yet known to the host, or known. */
  datatype Attr<T> = Null | Unknown | Known(value: T)

  /** ValueString of a types.String: the empty string unless the value is known. */
  function ValueString(a: Attr<string>): string
  {
    if a.Known? then a.value else ""
  }

  datatype Severity = Error | Warning

  /** A diagnostic; `path` is the root attribute it is attached to, if any. */
  datatype Diagnostic = Diagnostic(severity: Severity, path: Option<string>, summary: string, detail: string)

  /** What AddAttributeError(path.Root(attribute), summary, detail) records. */
  function AttributeError(attribute: string, summary: string, detail: string): Diagnostic
  {
    Diagnostic(Error, Some(attribute), summary, detail)
  }

  /** What AddError(summary, detail) records. */
  function PlainError(summary: string, detail: string): Diagnostic
  {
    Diagnostic(Error, None, summary, detail)
  }

  /** Diagnostics.HasError: some diagnostic has error severity. */
  predicate HasError(ds: seq<Diagnostic>)
  {
    exists d :: d in ds && d.severity == Error
  }

  /** With two severities, a list has no error exactly when every diagnostic
      in it is a warning: warnings alone never halt. */
  lemma NoErrorMeansWarningsOnly(ds: seq<Diagnostic>)
    ensures !HasError(ds) <==> forall d :: d in ds ==> d.severity == Warning
  {
  }

  predicate NoDuplicates(ds: seq<Diagnostic>)
  {
    forall i, j :: 0 <= i < j < |ds| ==> ds[i] != ds[j]
  }

  /** Diagnostics.Append of one diagnostic: a diagnostic equal to one already
      present is dropped, any other is added at the end. */
  function Add(ds: seq<Diagnostic>, d: Diagnostic): (r: seq<Diagnostic>)
    ensures |ds| <= |r| && r[..|ds|] == ds
    ensures d !in ds ==> r == ds + [d]
    ensures d in ds ==> r == ds
    ensures HasError(r) <==> HasError(ds) || d.severity == Error
  {
    if d in ds then ds else ds + [d]
  }

  /** Diagnostics.Append(xs...): each of `xs` in turn, in order. */
  function AppendAll(ds: seq<Diagnostic>, xs: seq<Diagnostic>): (r: seq<Diagnostic>)
    ensures |ds| <= |r| && r[..|ds|] == ds
    ensures HasError(r) <==> HasError(ds) || HasError(xs)
    decreases |xs|
  {
    if xs == [] then ds else AppendAll(Add(ds, xs[0]), xs[1..])
  }

  /** Appending keeps exactly the diagnostics of both lists. */
  lemma {:induction false} AppendAllMembers(ds: seq<Diagnostic>, xs: seq<Diagnostic>)
    ensures forall x :: x in AppendAll(ds, xs) <==> x in ds || x in xs
    decreases |xs|
  {
    if xs != [] {
      AppendAllMembers(Add(ds, xs[0]), xs[1..]);
      assert forall x :: x in xs <==> x == xs[0] || x in xs[1..];
    }
  }

  /** Appending never introduces a duplicate. */
  lemma {:induction false} AppendAllKeepsDistinct(ds: seq<Diagnostic>, xs: seq<Diagnostic>)
    requires NoDuplicates(ds)
    ensures NoDuplicates(AppendAll(ds, xs))
    decreases |xs|
  {
    if xs != [] {
      AppendAllKeepsDistinct(Add(ds, xs[0]), xs[1..]);
    }
  }

  /** Appending to an empty list removes duplicates and nothing else. */
  lemma AppendAllDeduplicates(xs: seq<Diagnostic>)
    ensures forall x :: x in AppendAll([], xs) <==> x in xs
    ensures NoDuplicates(AppendAll([], xs))
    ensures NoDuplicates(xs) ==> AppendAll([], xs) == xs
  {
    AppendAllMembers([], xs);
    AppendAllKeepsDistinct([], xs);
    if NoDuplicates(xs) {
      assert [] + xs == xs;
      AppendAllOfDistinct([], xs);
    }
  }

  /** Appending distinct diagnostics that are not yet present concatenates. */
  lemma {:induction false} AppendAllOfDistinct(ds: seq<Diagnostic>, xs: seq<Diagnostic>)
    requires NoDuplicates(ds + xs)
    ensures AppendAll(ds, xs) == ds + xs
    decreases |xs|
  {
    if xs != [] {
      var all := ds + xs;
      assert xs[0] !in ds by {
        forall k | 0 <= k < |ds| ensures ds[k] != xs[0] {
          assert all[k] == ds[k] && all[|ds|] == xs[0];
        }
      }
      assert Add(ds, xs[0]) == ds + [xs[0]];
      assert ds + [xs[0]] + xs[1..] == all;
      AppendAllOfDistinct(ds + [xs[0]], xs[1..]);
    }
  }

  /** The semantic type of a schema attribute. */
  datatype AttrType =
    | StringType
    | Int64Type
    | MapOfObjectsType
    | ListNestedType(nested: map<string, AttrDecl>)

  /** One schema attribute with its dispositions. */
  datatype AttrDecl = AttrDecl(
    typ: AttrType,
    required: bool,
    optional: bool,
    computed: bool,
    sensitive: bool,
    description: string)
}
