/**
 * The few JavaScript value semantics the webhook handler relies on: string
 * properties that may be null or undefined, truthiness and `||` defaulting,
 * the strict `!== null` filter, and `Array.prototype.join`.
 */
module JsValues {

  /** A nested object reached by optional chaining: null and undefined behave alike. */
  datatype Option<T> = None | Some(value: T)

  /** A string-typed JavaScript property that may also hold null or undefined. */
  datatype JsString = Null | Undefined | Str(value: string)

  /** JavaScript truthiness: only a non-empty string is truthy. */
  predicate Truthy(v: JsString) {
    v.Str? && v.value != ""
  }

  /** `v || fallback` for a string-or-nullish `v`. */
  function Or(v: JsString, fallback: string): (r: string)
    ensures Truthy(v) ==> r == v.value
    ensures !Truthy(v) ==> r == fallback
    ensures fallback != "" ==> r != ""
  {
    if Truthy(v) then v.value else fallback
  }

  /** How `join` renders one element: null and undefined become the empty string. */
  function Render(v: JsString): (r: string)
    ensures v.Str? ==> r == v.value
    ensures !v.Str? ==> r == ""
  {
    if v.Str? then v.value else ""
  }

  /**
   * `xs.filter((x) => x !== null)`: strict inequality drops null only, so
   * undefined elements survive, in their original order.
   */
  function WithoutNulls(xs: seq<JsString>): (r: seq<JsString>)
    ensures Null !in r
    ensures forall v :: v in r <==> v in xs && v != Null
    ensures |r| == |xs| - NullCount(xs)
    ensures Null !in xs ==> r == xs
  {
    if xs == [] then []
    else if xs[0] == Null then WithoutNulls(xs[1..]) else [xs[0]] + WithoutNulls(xs[1..])
  }

  /** How many elements are null. */
  function NullCount(xs: seq<JsString>): nat {
    if xs == [] then 0 else (if xs[0] == Null then 1 else 0) + NullCount(xs[1..])
  }

  /** A sequence of nulls filters down to nothing. */
  lemma {:induction false} WithoutNullsOfNulls(xs: seq<JsString>)
    requires forall i :: 0 <= i < |xs| ==> xs[i] == Null
    ensures WithoutNulls(xs) == []
  {
    if xs != [] {
      WithoutNullsOfNulls(xs[1..]);
    }
  }

  /** Filtering commutes with concatenation, so the kept elements keep their order. */
  lemma {:induction false} WithoutNullsAppend(xs: seq<JsString>, ys: seq<JsString>)
    ensures WithoutNulls(xs + ys) == WithoutNulls(xs) + WithoutNulls(ys)
  {
    if xs != [] {
      assert (xs + ys)[1..] == xs[1..] + ys;
      WithoutNullsAppend(xs[1..], ys);
    } else {
      assert xs + ys == ys;
    }
  }

  /** Total length of the rendered elements. */
  function RenderedLength(xs: seq<JsString>): nat {
    if xs == [] then 0 else |Render(xs[0])| + RenderedLength(xs[1..])
  }

  /** `xs.join(sep)`: the rendered elements with one `sep` between neighbours. */
  function Join(xs: seq<JsString>, sep: string): (r: string)
    ensures xs == [] ==> r == ""
    ensures xs != [] ==> Render(xs[0]) <= r
  {
    if xs == [] then ""
    else if |xs| == 1 then Render(xs[0])
    else Render(xs[0]) + sep + Join(xs[1..], sep)
  }

  /** A join is as long as its rendered elements plus one separator per gap. */
  lemma {:induction false} JoinLength(xs: seq<JsString>, sep: string)
    requires xs != []
    ensures |Join(xs, sep)| == RenderedLength(xs) + (|xs| - 1) * |sep|
  {
    if |xs| > 1 {
      JoinLength(xs[1..], sep);
      assert RenderedLength(xs) == |Render(xs[0])| + RenderedLength(xs[1..]);
      assert (|xs| - 1) * |sep| == (|xs| - 2) * |sep| + |sep|;
    }
  }

  /** Appending an element appends one separator and that element's rendering. */
  lemma {:induction false} JoinSnoc(xs: seq<JsString>, x: JsString, sep: string)
    requires xs != []
    ensures Join(xs + [x], sep) == Join(xs, sep) + sep + Render(x)
  {
    var ys := xs + [x];
    assert ys[0] == xs[0];
    if |xs| == 1 {
      assert ys[1..] == [x];
      assert Join(ys, sep) == Render(xs[0]) + sep + Join([x], sep);
    } else {
      assert ys[1..] == xs[1..] + [x];
      JoinSnoc(xs[1..], x, sep);
      assert Join(ys, sep) == Render(xs[0]) + sep + Join(xs[1..] + [x], sep);
    }
  }
}
