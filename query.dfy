/** The store's filtering of a table, as the query layer chains it: each
    optional request parameter that is present and non-empty narrows the
    current result by a case-insensitive substring test on one field. */
module Query {
  import opened Text

  datatype Option<+T> = None | Some(value: T)

  /** Python truthiness of an optional query parameter: present and non-empty. */
  predicate Given(param: Option<string>) {
    param.Some? && param.value != ""
  }

  /** What one field's text must satisfy under one optional `icontains`
      parameter: nothing when the parameter is absent or empty. */
  predicate Passes(text: string, param: Option<string>) {
    Given(param) ==> IContains(text, param.value)
  }

  /** The rows of `xs` that `keep` accepts, in table order and with their
      multiplicity (the store's WHERE clause). */
  function Select<T(==,!new)>(xs: seq<T>, keep: T -> bool): (r: seq<T>)
    ensures |r| <= |xs|
    ensures forall x :: x in r <==> x in xs && keep(x)
    ensures (forall x | x in xs :: keep(x)) ==> r == xs
    ensures (forall x | x in xs :: !keep(x)) ==> r == []
  {
    if xs == [] then []
    else (if keep(xs[0]) then [xs[0]] else []) + Select(xs[1..], keep)
  }

  /** One `queryset = queryset.filter(<field>__icontains=param)` step,
      taken only when the parameter is truthy. */
  function Narrow<T(==,!new)>(qs: seq<T>, field: T -> string, param: Option<string>): seq<T> {
    if Given(param) then Select(qs, x => IContains(field(x), param.value)) else qs
  }

  /** Selection depends only on what the predicate answers. */
  lemma {:induction false} SelectSame<T(!new)>(xs: seq<T>, f: T -> bool, g: T -> bool)
    requires forall x :: f(x) == g(x)
    ensures Select(xs, f) == Select(xs, g)
  {
    if xs != [] {
      SelectSame(xs[1..], f, g);
    }
  }

  /** Two filters in a row select exactly what their conjunction selects,
      in the same order and with the same multiplicity. */
  lemma {:induction false} SelectConjoin<T(!new)>(xs: seq<T>, f: T -> bool, g: T -> bool, h: T -> bool)
    requires forall x :: h(x) == (f(x) && g(x))
    ensures Select(Select(xs, f), g) == Select(xs, h)
  {
    if xs != [] {
      SelectConjoin(xs[1..], f, g, h);
      var head := if f(xs[0]) then [xs[0]] else [];
      SelectAppend(head, Select(xs[1..], f), g);
    }
  }

  /** Selecting from a concatenation selects from each part. */
  lemma {:induction false} SelectAppend<T(!new)>(a: seq<T>, b: seq<T>, g: T -> bool)
    ensures Select(a + b, g) == Select(a, g) + Select(b, g)
  {
    if a == [] {
      assert a + b == b;
    } else {
      assert (a + b)[1..] == a[1..] + b;
      SelectAppend(a[1..], b, g);
    }
  }

  /** A Narrow step is a selection by Passes on that field. */
  lemma NarrowIsSelect<T(!new)>(qs: seq<T>, field: T -> string, param: Option<string>, keep: T -> bool)
    requires forall x :: keep(x) == Passes(field(x), param)
    ensures Narrow(qs, field, param) == Select(qs, keep)
  {
    if Given(param) {
      SelectSame(qs, x => IContains(field(x), param.value), keep);
    }
  }

  /** Narrowing a selection by one more parameter is a selection by the
      conjunction of the old test and the new one. */
  lemma NarrowSelect<T(!new)>(xs: seq<T>, acc: T -> bool, field: T -> string, param: Option<string>, next: T -> bool)
    requires forall x :: next(x) == (acc(x) && Passes(field(x), param))
    ensures Narrow(Select(xs, acc), field, param) == Select(xs, next)
  {
    var keep := x => Passes(field(x), param);
    NarrowIsSelect(Select(xs, acc), field, param, keep);
    SelectConjoin(xs, acc, keep, next);
  }
}
