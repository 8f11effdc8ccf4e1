/** Small helpers shared by every module: an Option type, the JavaScript
    truthiness of strings, first-match search (Array.prototype.find) and
    order-preserving de-duplication (Array.from(new Set(...))). */
module Common {

  datatype Option<+T> = None | Some(value: T)

  /** The `mode` prop of the add/edit/view forms. */
  datatype FormMode = AddMode | EditMode | ViewMode

  /** The outcome of one awaited API call: its value, or a throw. */
  datatype Fetch<+T> = Fetched(data: T) | FetchFailed

  /** A JavaScript string is truthy exactly when it is not empty. */
  predicate Truthy(s: string) {
    s != ""
  }

  /** `x || d` on an optional string: undefined and "" both fall back to `d`. */
  function OrElse(x: Option<string>, d: string): (r: string)
    ensures r == d <==> x.None? || x.value == "" || x.value == d
    ensures Truthy(d) ==> Truthy(r)
  {
    if x.Some? && x.value != "" then x.value else d
  }

  /** `a || b` on two optional strings: `b` (possibly undefined) unless `a` is
      a non-empty string. */
  function Or(a: Option<string>, b: Option<string>): (r: Option<string>)
    ensures a.Some? && a.value != "" ==> r == a
    ensures (a.None? || a.value == "") ==> r == b
  {
    if a.Some? && a.value != "" then a else b
  }

  /** `x ?? d`: only undefined falls back; "" is kept. */
  function Coalesce<T>(x: Option<T>, d: T): (r: T)
    ensures x.Some? ==> r == x.value
    ensures x.None? ==> r == d
  {
    match x
    case Some(v) => v
    case None => d
  }

  /** The two defaulting operators differ exactly on the empty string. */
  lemma OrElseDiffersFromCoalesce(d: string)
    requires d != ""
    ensures OrElse(Some(""), d) == d
    ensures Coalesce(Some(""), d) == ""
  {
  }

  /** Index of the first element satisfying `p`, as `Array.prototype.findIndex`. */
  function FirstIndex<T>(s: seq<T>, p: T -> bool): (r: Option<nat>)
    ensures r.None? <==> forall i :: 0 <= i < |s| ==> !p(s[i])
    ensures r.Some? ==> r.value < |s| && p(s[r.value])
    ensures r.Some? ==> forall j :: 0 <= j < r.value ==> !p(s[j])
  {
    if s == [] then None
    else if p(s[0]) then Some(0)
    else match FirstIndex(s[1..], p)
         case None => None
         case Some(k) => Some(k + 1)
  }

  /** `Array.prototype.find`: the first element satisfying `p`, if any. */
  function Find<T>(s: seq<T>, p: T -> bool): (r: Option<T>)
    ensures r.None? <==> forall i :: 0 <= i < |s| ==> !p(s[i])
    ensures r.Some? ==> p(r.value) && r.value in s
    ensures r.Some? ==> exists i :: 0 <= i < |s| && s[i] == r.value && forall j :: 0 <= j < i ==> !p(s[j])
  {
    match FirstIndex(s, p)
    case None => None
    case Some(i) => Some(s[i])
  }

  /** `Array.prototype.filter`: the elements satisfying `p`, in their order. */
  function Filter<T>(s: seq<T>, p: T -> bool): (r: seq<T>)
    ensures |r| <= |s|
    ensures forall i :: 0 <= i < |r| ==> p(r[i]) && r[i] in s
    ensures forall i :: 0 <= i < |s| && p(s[i]) ==> s[i] in r
    ensures r == [] <==> forall i :: 0 <= i < |s| ==> !p(s[i])
  {
    if s == [] then []
    else (if p(s[0]) then [s[0]] else []) + Filter(s[1..], p)
  }

  predicate NoDuplicates<T(==)>(s: seq<T>) {
    forall i, j :: 0 <= i < j < |s| ==> s[i] != s[j]
  }

  /** Position of the first occurrence of `x` in `s`. */
  function FirstOccurrence<T(==)>(s: seq<T>, x: T): (r: nat)
    requires x in s
    ensures r < |s| && s[r] == x && x !in s[..r]
  {
    if s[0] == x then 0 else FirstOccurrence(s[1..], x) + 1
  }

  /** `Array.from(new Set(s))`: the distinct elements of `s` in order of
      first occurrence (a Set iterates in insertion order). */
  function Distinct<T(==)>(s: seq<T>): seq<T>
  {
    if s == [] then []
    else
      var r := Distinct(s[..|s| - 1]);
      if s[|s| - 1] in r then r else r + [s[|s| - 1]]
  }

  /** Distinct keeps exactly the elements of its input, once each. */
  lemma {:induction false} DistinctElements<T>(s: seq<T>)
    ensures NoDuplicates(Distinct(s))
    ensures forall x :: x in Distinct(s) ==> x in s
    ensures forall x :: x in s ==> x in Distinct(s)
  {
    if s != [] {
      var init := s[..|s| - 1];
      DistinctElements(init);
      forall x ensures x in s <==> x in init || x == s[|s| - 1] {
        assert s == init + [s[|s| - 1]];
      }
    }
  }

  /** Distinct lists elements in the order of their first occurrence in the input. */
  lemma {:induction false} DistinctFirstOccurrenceOrder<T>(s: seq<T>, i: nat, j: nat)
    requires i < j < |Distinct(s)|
    ensures Distinct(s)[i] in s && Distinct(s)[j] in s
    ensures FirstOccurrence(s, Distinct(s)[i]) < FirstOccurrence(s, Distinct(s)[j])
  {
    DistinctElements(s);
    var init := s[..|s| - 1];
    var last := s[|s| - 1];
    var r := Distinct(init);
    DistinctElements(init);
    assert s == init + [last];
    if j < |r| {
      DistinctFirstOccurrenceOrder(init, i, j);
      FirstOccurrencePrefix(init, last, r[i]);
      FirstOccurrencePrefix(init, last, r[j]);
    } else {
      // r[j'] is the appended `last`, which does not occur in `init`
      assert Distinct(s) == r + [last] && j == |r| && last !in init;
      assert r[i] in Distinct(init);
      assert r[i] in init;
      FirstOccurrencePrefix(init, last, r[i]);
      FirstOccurrenceLast(init, last);
    }
  }

  lemma {:induction false} FirstOccurrencePrefix<T>(init: seq<T>, last: T, x: T)
    requires x in init
    ensures x in init + [last]
    ensures FirstOccurrence(init + [last], x) == FirstOccurrence(init, x)
  {
    if init[0] != x {
      assert (init + [last])[1..] == init[1..] + [last];
      FirstOccurrencePrefix(init[1..], last, x);
    }
  }

  lemma FirstOccurrenceLast<T>(init: seq<T>, last: T)
    requires last !in init
    ensures last in init + [last]
    ensures FirstOccurrence(init + [last], last) == |init|
  {
    var s := init + [last];
    assert s[..|init|] == init;
  }
}
