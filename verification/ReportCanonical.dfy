/** The bytes a reconciliation report is signed over do not depend on the order its keys were written in. */
module ReportCanonical {
  import opened Collections

  /** One key of the report; an undefined value does not take part. */
  datatype Field = Field(name: string, value: Option<string>)

  /** The order of the language's own sort: character by character, a prefix first. */
  predicate Before(a: string, b: string) {
    b != "" && (a == "" || if a[0] != b[0] then a[0] < b[0] else Before(a[1..], b[1..]))
  }

  lemma {:induction false} BeforeIsStrict(a: string)
    ensures !Before(a, a)
    decreases |a|
  {
    if a != "" {
      BeforeIsStrict(a[1..]);
    }
  }

  lemma {:induction false} BeforeIsTransitive(a: string, b: string, c: string)
    requires Before(a, b) && Before(b, c)
    ensures Before(a, c)
    decreases |a|
  {
    if a != "" && a[0] == b[0] && b[0] == c[0] {
      BeforeIsTransitive(a[1..], b[1..], c[1..]);
    }
  }

  lemma {:induction false} BeforeIsTotal(a: string, b: string)
    ensures a == b || Before(a, b) || Before(b, a)
    decreases |a|
  {
    if a != "" && b != "" && a[0] == b[0] {
      BeforeIsTotal(a[1..], b[1..]);
      assert a == [a[0]] + a[1..] && b == [b[0]] + b[1..];
    }
  }

  function InsertField(fields: seq<Field>, f: Field): seq<Field> {
    if fields == [] || !Before(f.name, fields[|fields| - 1].name) then fields + [f]
    else InsertField(fields[..|fields| - 1], f) + [fields[|fields| - 1]]
  }

  function SortFields(report: seq<Field>): seq<Field> {
    if report == [] then [] else InsertField(SortFields(report[..|report| - 1]), report[|report| - 1])
  }

  predicate Defined(f: Field) {
    f.value.Some?
  }

  /** Keys sorted, undefined values dropped. */
  method CanonicalizeReport(report: seq<Field>) returns (ordered: seq<Field>)
    ensures ordered == Filter(Defined, SortFields(report))
  {
    ordered := [];
    var sorted := SortFields(report);
    var i := 0;
    while i < |sorted|
      invariant 0 <= i <= |sorted|
      invariant ordered == Filter(Defined, sorted[..i])
    {
      assert sorted[..i + 1] == sorted[..i] + [sorted[i]];
      FilterSnoc(Defined, sorted[..i], sorted[i]);
      if sorted[i].value.Some? {
        ordered := ordered + [sorted[i]];
      }
      i := i + 1;
    }
    assert sorted[..|sorted|] == sorted;
  }

  ghost predicate Ascending(fields: seq<Field>) {
    forall i, j :: 0 <= i < j < |fields| ==> Before(fields[i].name, fields[j].name)
  }

  ghost predicate DistinctKeys(fields: seq<Field>) {
    forall i, j :: 0 <= i < j < |fields| ==> fields[i].name != fields[j].name
  }

  /** A field that belongs before the last one goes in front of it. */
  lemma AscendsBeforeLast(inserted: seq<Field>, init: seq<Field>, f: Field, last: Field)
    requires Ascending(inserted) && (forall g :: g in inserted <==> g in init || g == f)
    requires Before(f.name, last.name) && forall g :: g in init ==> Before(g.name, last.name)
    ensures Ascending(inserted + [last])
  {
    forall i | 0 <= i < |inserted| ensures Before(inserted[i].name, last.name) {
      assert inserted[i] in inserted;
    }
  }

  /** A field that belongs after the last one belongs after all. */
  lemma AscendsAfterLast(fields: seq<Field>, f: Field)
    requires Ascending(fields) && fields != [] && Before(fields[|fields| - 1].name, f.name)
    ensures Ascending(fields + [f])
  {
    var last := fields[|fields| - 1];
    forall i | 0 <= i < |fields| ensures Before(fields[i].name, f.name) {
      if i < |fields| - 1 {
        BeforeIsTransitive(fields[i].name, last.name, f.name);
      }
    }
  }

  lemma {:induction false} InsertMembers(fields: seq<Field>, f: Field, g: Field)
    ensures g in InsertField(fields, f) <==> g in fields || g == f
    decreases |fields|
  {
    if fields != [] && Before(f.name, fields[|fields| - 1].name) {
      InsertMembers(fields[..|fields| - 1], f, g);
      assert fields == fields[..|fields| - 1] + [fields[|fields| - 1]];
    }
  }

  lemma {:induction false} InsertAscends(fields: seq<Field>, f: Field)
    requires Ascending(fields) && forall g :: g in fields ==> g.name != f.name
    ensures Ascending(InsertField(fields, f)) && forall g :: g in InsertField(fields, f) <==> g in fields || g == f
    decreases |fields|
  {
    forall g ensures g in InsertField(fields, f) <==> g in fields || g == f {
      InsertMembers(fields, f, g);
    }
    if fields != [] {
      var init, last := fields[..|fields| - 1], fields[|fields| - 1];
      assert last in fields;
      BeforeIsTotal(f.name, last.name);
      if Before(f.name, last.name) {
        InsertAscends(init, f);
        forall g | g in init ensures Before(g.name, last.name) {
          var i :| 0 <= i < |init| && init[i] == g;
          assert Before(fields[i].name, fields[|fields| - 1].name);
        }
        AscendsBeforeLast(InsertField(init, f), init, f, last);
      } else {
        AscendsAfterLast(fields, f);
      }
    }
  }

  lemma {:induction false} SortAscends(report: seq<Field>)
    requires DistinctKeys(report)
    ensures Ascending(SortFields(report)) && forall g :: g in SortFields(report) <==> g in report
    decreases |report|
  {
    if report != [] {
      var init, last := report[..|report| - 1], report[|report| - 1];
      assert report == init + [last];
      SortAscends(init);
      InsertAscends(SortFields(init), last);
    }
  }

  lemma {:induction false} SelectionAscends(fields: seq<Field>)
    requires Ascending(fields)
    ensures Ascending(Filter(Defined, fields))
    decreases |fields|
  {
    if fields != [] {
      var init, last := fields[..|fields| - 1], fields[|fields| - 1];
      SelectionAscends(init);
      FilterMembers(Defined, init);
      forall g | g in Filter(Defined, init) ensures Before(g.name, last.name) {
        var i :| 0 <= i < |init| && init[i] == g;
        assert Before(fields[i].name, fields[|fields| - 1].name);
      }
    }
  }

  lemma LastIsGreatest(a: seq<Field>, f: Field)
    requires Ascending(a) && f in a
    ensures f == a[|a| - 1] || Before(f.name, a[|a| - 1].name)
  {
  }

  lemma LastOnce(a: seq<Field>, f: Field)
    requires Ascending(a) && a != []
    ensures f in a[..|a| - 1] <==> f in a && f != a[|a| - 1]
  {
    BeforeIsStrict(a[|a| - 1].name);
    assert a == a[..|a| - 1] + [a[|a| - 1]];
  }

  lemma LastsAgree(a: seq<Field>, b: seq<Field>)
    requires Ascending(a) && Ascending(b) && a != [] && b != [] && a[|a| - 1] in b && b[|b| - 1] in a
    ensures a[|a| - 1] == b[|b| - 1]
  {
    var al, bl := a[|a| - 1], b[|b| - 1];
    LastIsGreatest(a, bl);
    LastIsGreatest(b, al);
    BeforeIsStrict(al.name);
    if Before(al.name, bl.name) && Before(bl.name, al.name) {
      BeforeIsTransitive(al.name, bl.name, al.name);
    }
  }

  ghost predicate SameFields(a: seq<Field>, b: seq<Field>) {
    forall f :: f in a <==> f in b
  }

  lemma InitsAgree(a: seq<Field>, b: seq<Field>, ai: seq<Field>, bi: seq<Field>, last: Field)
    requires Ascending(a) && Ascending(b) && a == ai + [last] && b == bi + [last] && SameFields(a, b)
    ensures SameFields(ai, bi) && Ascending(ai) && Ascending(bi)
  {
    assert a[..|a| - 1] == ai && b[..|b| - 1] == bi;
    forall f ensures f in ai <==> f in bi {
      LastOnce(a, f);
      LastOnce(b, f);
    }
  }

  /** Ascending sequences of the same fields are the same sequence. */
  lemma {:induction false} AscendingIsUnique(a: seq<Field>, b: seq<Field>)
    requires Ascending(a) && Ascending(b) && SameFields(a, b)
    ensures a == b
    decreases |a|
  {
    assert (a == [] || a[0] in b) && (b == [] || b[0] in a);
    if a != [] && b != [] {
      var ai, bi, last := a[..|a| - 1], b[..|b| - 1], a[|a| - 1];
      assert last in a && b[|b| - 1] in b;
      LastsAgree(a, b);
      assert a == ai + [last] && b == bi + [last];
      InitsAgree(a, b, ai, bi, last);
      AscendingIsUnique(ai, bi);
    }
  }

  /** Two objects that hold the same defined values canonicalise to the same sequence, however their keys were inserted. */
  lemma {:induction false} CanonicalIgnoresKeyOrder(report: seq<Field>, other: seq<Field>)
    requires DistinctKeys(report) && DistinctKeys(other)
    requires forall f :: Defined(f) ==> (f in report <==> f in other)
    ensures Filter(Defined, SortFields(report)) == Filter(Defined, SortFields(other))
  {
    SortAscends(report);
    SortAscends(other);
    SelectionAscends(SortFields(report));
    SelectionAscends(SortFields(other));
    FilterMembers(Defined, SortFields(report));
    FilterMembers(Defined, SortFields(other));
    AscendingIsUnique(Filter(Defined, SortFields(report)), Filter(Defined, SortFields(other)));
  }

  /** What the platform rebuilds from a canonical report is that report: canonicalising twice changes nothing. */
  lemma CanonicalIsStable(report: seq<Field>)
    requires DistinctKeys(report)
    ensures var c := Filter(Defined, SortFields(report)); DistinctKeys(c) && Filter(Defined, SortFields(c)) == c
  {
    var c := Filter(Defined, SortFields(report));
    SortAscends(report);
    SelectionAscends(SortFields(report));
    FilterMembers(Defined, SortFields(report));
    forall i, j | 0 <= i < j < |c| ensures c[i].name != c[j].name {
      BeforeIsStrict(c[i].name);
    }
    SortAscends(c);
    SelectionAscends(SortFields(c));
    FilterMembers(Defined, SortFields(c));
    AscendingIsUnique(Filter(Defined, SortFields(c)), c);
  }
}
