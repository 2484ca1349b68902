/**
 * Python values as `json.loads` produces them from an RDAP response, and the
 * handful of Python operations the lookup engine applies to them: `d.get`,
 * `x[key]`, `x[i]`, `for v in x`, truthiness, `str.split`, `str.upper`,
 * `str.join`. Every operation that raises in Python yields `Raise(...)`.
 */
module PyJson {

  datatype Option<+T> = None | Some(value: T)

  /** A decoded JSON document. A dict keeps its members in document order. */
  datatype Json =
    | JNull
    | JBool(b: bool)
    | JNumber(n: int)
    | JString(s: string)
    | JArray(items: seq<Json>)
    | JObject(members: seq<(string, Json)>)

  /** The Python exceptions that the unguarded accesses of the engine raise. */
  datatype PyError = KeyError | IndexError | TypeError | AttributeError

  /** The value of a Python expression, or the exception it raised. */
  datatype Result<+T> = Ok(value: T) | Raise(error: PyError) {
    predicate IsFailure() { Raise? }

    function PropagateFailure<U>(): Result<U>
      requires Raise?
    {
      Raise(error)
    }

    function Extract(): T
      requires Ok?
    {
      value
    }
  }

  /** `d[key]` of the dict decoded from `members`: when a key repeats, `json.loads` keeps the last value. */
  function Lookup(members: seq<(string, Json)>, key: string): Option<Json>
    decreases |members|
  {
    if members == [] then None
    else if members[|members| - 1].0 == key then Some(members[|members| - 1].1)
    else Lookup(members[..|members| - 1], key)
  }

  /** A key is found exactly when some member has it, and then its value is that of the last such member. */
  lemma {:induction false} LookupFindsLast(members: seq<(string, Json)>, key: string)
    ensures Lookup(members, key).None? <==> forall i :: 0 <= i < |members| ==> members[i].0 != key
    ensures Lookup(members, key).Some? ==>
      exists i :: 0 <= i < |members| && members[i] == (key, Lookup(members, key).value) &&
        forall j :: i < j < |members| ==> members[j].0 != key
    decreases |members|
  {
    if members != [] {
      var n := |members| - 1;
      var prefix := members[..n];
      LookupFindsLast(prefix, key);
      assert forall i :: 0 <= i < n ==> members[i] == prefix[i];
      if members[n].0 != key && Lookup(prefix, key).Some? {
        var i :| 0 <= i < n && prefix[i] == (key, Lookup(prefix, key).value) &&
          forall j :: i < j < n ==> prefix[j].0 != key;
        assert members[i] == prefix[i];
      }
    }
  }

  /** `key in d` */
  predicate HasKey(members: seq<(string, Json)>, key: string) {
    Lookup(members, key).Some?
  }

  /** `d[key]` where `key in d` is already known. */
  function Member(members: seq<(string, Json)>, key: string): Json
    requires HasKey(members, key)
  {
    Lookup(members, key).value
  }

  /** `d.get(key, default)` on a dict. */
  function Get(members: seq<(string, Json)>, key: string, default: Json): Json {
    match Lookup(members, key)
    case Some(v) => v
    case None => default
  }

  /** `x.get(key, default)`: only a dict has a `get` method. */
  function DictGet(x: Json, key: string, default: Json): Result<Json> {
    if x.JObject? then Ok(Get(x.members, key, default)) else Raise(AttributeError)
  }

  /** `x[key]` with a string key. */
  function Subscript(x: Json, key: string): Result<Json> {
    match x
    case JObject(members) =>
      (match Lookup(members, key)
       case Some(v) => Ok(v)
       case None => Raise(KeyError))
    case _ => Raise(TypeError)
  }

  /** `x[i]` with a non-negative integer index; a dict decoded from JSON has no integer keys. */
  function Index(x: Json, i: nat): Result<Json> {
    match x
    case JArray(items) => if i < |items| then Ok(items[i]) else Raise(IndexError)
    case JString(s) => if i < |s| then Ok(JString([s[i]])) else Raise(IndexError)
    case JObject(_) => Raise(KeyError)
    case _ => Raise(TypeError)
  }

  /** The one-character strings `for c in s` visits. */
  function Chars(s: string): (cs: seq<Json>)
    ensures |cs| == |s|
  {
    seq(|s|, i requires 0 <= i < |s| => JString([s[i]]))
  }

  /** The keys `for k in d` visits: first-occurrence order, each key once. */
  function Keys(members: seq<(string, Json)>): seq<Json>
    decreases |members|
  {
    if members == [] then []
    else
      var earlier := Keys(members[..|members| - 1]);
      var key := JString(members[|members| - 1].0);
      if key in earlier then earlier else earlier + [key]
  }

  /** The elements `for v in x` visits. */
  function Iterate(x: Json): Result<seq<Json>> {
    match x
    case JArray(items) => Ok(items)
    case JString(s) => Ok(Chars(s))
    case JObject(members) => Ok(Keys(members))
    case _ => Raise(TypeError)
  }

  /** `bool(x)` */
  predicate Truthy(x: Json) {
    match x
    case JNull => false
    case JBool(b) => b
    case JNumber(n) => n != 0
    case JString(s) => s != ""
    case JArray(items) => items != []
    case JObject(members) => members != []
  }

  /** `filter(None, xs)` */
  function KeepTruthy(xs: seq<Json>): seq<Json>
    decreases |xs|
  {
    if xs == [] then []
    else (if Truthy(xs[0]) then [xs[0]] else []) + KeepTruthy(xs[1..])
  }

  /** `filter(None, ...)` keeps exactly the truthy elements. */
  lemma {:induction false} KeepTruthyMembers(xs: seq<Json>)
    ensures forall x :: x in KeepTruthy(xs) <==> x in xs && Truthy(x)
    decreases |xs|
  {
    if xs != [] {
      KeepTruthyMembers(xs[1..]);
      assert xs == [xs[0]] + xs[1..];
    }
  }

  /** `filter(None, ...)` keeps the elements' order: filtering distributes over concatenation. */
  lemma {:induction false} KeepTruthySplits(a: seq<Json>, b: seq<Json>)
    ensures KeepTruthy(a + b) == KeepTruthy(a) + KeepTruthy(b)
    decreases |a|
  {
    if a != [] {
      assert (a + b)[1..] == a[1..] + b;
      KeepTruthySplits(a[1..], b);
    } else {
      assert a + b == b;
    }
  }

  /** `str(x)`: a string is itself; any other value is rendered by `show`, Python's own `str`. */
  function Str(x: Json, show: Json -> string): string {
    if x.JString? then x.s else show(x)
  }

  /** `sep.join(xs)` over strings. */
  function Join(sep: string, xs: seq<string>): string
    decreases |xs|
  {
    if xs == [] then ""
    else if |xs| == 1 then xs[0]
    else Join(sep, xs[..|xs| - 1]) + sep + xs[|xs| - 1]
  }

  predicate AllStrings(xs: seq<Json>) {
    forall i :: 0 <= i < |xs| ==> xs[i].JString?
  }

  function Texts(xs: seq<Json>): (ts: seq<string>)
    requires AllStrings(xs)
    ensures |ts| == |xs| && forall i :: 0 <= i < |xs| ==> ts[i] == xs[i].s
  {
    seq(|xs|, i requires 0 <= i < |xs| && AllStrings(xs) => xs[i].s)
  }

  /** `sep.join(xs)` over arbitrary values: any non-string item is a TypeError. */
  function JoinStrings(sep: string, xs: seq<Json>): Result<string> {
    if AllStrings(xs) then Ok(Join(sep, Texts(xs))) else Raise(TypeError)
  }

  /** `s.split(sep)` with an explicit one-character separator: empty pieces are kept. */
  function Split(s: string, sep: char): (parts: seq<string>)
    ensures |parts| >= 1
    decreases |s|
  {
    if s == [] then [""]
    else
      var rest := Split(s[1..], sep);
      if s[0] == sep then [""] + rest else [[s[0]] + rest[0]] + rest[1..]
  }

  /** A piece of `s.split(sep)` never contains `sep`, and there is one more piece than separators. */
  lemma {:induction false} SplitPieces(s: string, sep: char)
    ensures |Split(s, sep)| >= 2 <==> sep in s
    ensures forall k :: 0 <= k < |Split(s, sep)| ==> sep !in Split(s, sep)[k]
    decreases |s|
  {
    if s != [] {
      SplitPieces(s[1..], sep);
      assert s == [s[0]] + s[1..];
    }
  }

  /** The first piece of `s.split(sep)` is everything before the first separator. */
  lemma {:induction false} SplitFirst(head: string, rest: string, sep: char)
    requires sep !in head
    requires rest == [] || rest[0] == sep
    ensures Split(head + rest, sep)[0] == head
    decreases |head|
  {
    if head == [] {
      assert head + rest == rest;
    } else {
      assert (head + rest)[1..] == head[1..] + rest;
      SplitFirst(head[1..], rest, sep);
      assert [head[0]] + head[1..] == head;
    }
  }

  /** Splitting after a separator-free prefix and its separator continues with the rest. */
  lemma {:induction false} SplitAfter(head: string, tail: string, sep: char)
    requires sep !in head
    ensures Split(head + [sep] + tail, sep) == [head] + Split(tail, sep)
    decreases |head|
  {
    if head == [] {
      assert head + [sep] + tail == [sep] + tail;
      assert ([sep] + tail)[1..] == tail;
    } else {
      assert (head + [sep] + tail)[1..] == head[1..] + [sep] + tail;
      SplitAfter(head[1..], tail, sep);
      assert [head[0]] + head[1..] == head;
    }
  }

  function UpperChar(c: char): char {
    if 'a' <= c <= 'z' then (c as int - 32) as char else c
  }

  /** `s.upper()` on ASCII letters. */
  function Upper(s: string): (r: string)
    ensures |r| == |s| && forall i :: 0 <= i < |s| ==> r[i] == UpperChar(s[i])
  {
    seq(|s|, i requires 0 <= i < |s| => UpperChar(s[i]))
  }

  /**
   * A Python `for x in xs:` loop whose body turns the loop state `acc` into the
   * next one or raises; the first exception ends the loop.
   */
  function Fold<S>(xs: seq<Json>, init: S, step: (Json, S) -> Result<S>): Result<S>
    decreases |xs|
  {
    if xs == [] then Ok(init)
    else
      var acc :- Fold(xs[..|xs| - 1], init, step);
      step(xs[|xs| - 1], acc)
  }

  /** One more pass of the loop body. */
  lemma FoldNext<S>(xs: seq<Json>, init: S, step: (Json, S) -> Result<S>, i: nat)
    requires i < |xs| && Fold(xs[..i], init, step).Ok?
    ensures Fold(xs[..i + 1], init, step) == step(xs[i], Fold(xs[..i], init, step).value)
  {
    assert xs[..i + 1][..i] == xs[..i];
  }

  /** Once the body has raised, the loop raises that exception. */
  lemma {:induction false} FoldStops<S>(xs: seq<Json>, init: S, step: (Json, S) -> Result<S>, k: nat)
    requires k <= |xs| && Fold(xs[..k], init, step).Raise?
    ensures Fold(xs, init, step) == Fold(xs[..k], init, step)
    decreases |xs| - k
  {
    if k == |xs| {
      assert xs[..k] == xs;
    } else {
      assert xs[..k + 1][..k] == xs[..k];
      FoldStops(xs, init, step, k + 1);
    }
  }

  /** Whether the body raises depends on the element alone, never on the loop state. */
  ghost predicate RaisesOnlyOn<S(!new)>(step: (Json, S) -> Result<S>, bad: Json -> bool) {
    forall x, s :: step(x, s).Raise? <==> bad(x)
  }

  /** Such a loop completes exactly when no element is a bad one. */
  lemma {:induction false} FoldCompletes<S(!new)>(xs: seq<Json>, init: S, step: (Json, S) -> Result<S>, bad: Json -> bool)
    requires RaisesOnlyOn(step, bad)
    ensures Fold(xs, init, step).Ok? <==> forall i :: 0 <= i < |xs| ==> !bad(xs[i])
    decreases |xs|
  {
    if xs != [] {
      var prefix := xs[..|xs| - 1];
      FoldCompletes(prefix, init, step, bad);
      if Fold(prefix, init, step).Ok? {
        assert step(xs[|xs| - 1], Fold(prefix, init, step).value).Raise? <==> bad(xs[|xs| - 1]);
      } else {
        var i :| 0 <= i < |prefix| && bad(prefix[i]);
        assert xs[i] == prefix[i];
      }
    }
  }

  /**
   * The body overwrites the field `get` reads with `valueOf(x)` for the elements
   * `matches` selects, and leaves it alone for all others.
   */
  ghost predicate Overwrites<S(!new), X>(step: (Json, S) -> Result<S>, get: S -> X, matches: Json -> bool, valueOf: Json -> Result<X>) {
    forall x, s :: step(x, s).Ok? ==>
      if matches(x) then valueOf(x) == Ok(get(step(x, s).value)) else get(step(x, s).value) == get(s)
  }

  /** `v` is `default` when no element matches, and otherwise the value of the last element that does. */
  ghost predicate LastWins<X>(xs: seq<Json>, matches: Json -> bool, valueOf: Json -> Result<X>, default: X, v: X) {
    || ((forall i :: 0 <= i < |xs| ==> !matches(xs[i])) && v == default)
    || exists i :: 0 <= i < |xs| && matches(xs[i]) && valueOf(xs[i]) == Ok(v) &&
         forall j :: i < j < |xs| ==> !matches(xs[j])
  }

  /** A loop whose body overwrites a field leaves the last match's value in it. */
  lemma {:induction false} FoldLastWins<S(!new), X>(xs: seq<Json>, init: S, step: (Json, S) -> Result<S>,
                                                    get: S -> X, matches: Json -> bool, valueOf: Json -> Result<X>)
    requires Overwrites(step, get, matches, valueOf)
    requires Fold(xs, init, step).Ok?
    ensures LastWins(xs, matches, valueOf, get(init), get(Fold(xs, init, step).value))
    decreases |xs|
  {
    if xs != [] {
      var n := |xs| - 1;
      var prefix := xs[..n];
      FoldLastWins(prefix, init, step, get, matches, valueOf);
      var acc := Fold(prefix, init, step).value;
      var v := get(Fold(xs, init, step).value);
      assert Fold(xs, init, step) == step(xs[n], acc);
      if matches(xs[n]) {
        assert valueOf(xs[n]) == Ok(v);
      } else {
        assert v == get(acc);
        if forall i :: 0 <= i < |prefix| ==> !matches(prefix[i]) {
          assert forall i :: 0 <= i < |xs| ==> !matches(xs[i]) by {
            forall i | 0 <= i < |xs| ensures !matches(xs[i]) {
              if i < n { assert xs[i] == prefix[i]; }
            }
          }
        } else {
          var i :| 0 <= i < |prefix| && matches(prefix[i]) && valueOf(prefix[i]) == Ok(v) &&
            forall j :: i < j < |prefix| ==> !matches(prefix[j]);
          assert xs[i] == prefix[i];
          forall j | i < j < |xs| ensures !matches(xs[j]) {
            if j < n { assert xs[j] == prefix[j]; }
          }
        }
      }
    }
  }

  /** The body appends `valueOf(x)` to the sequence `get` reads for the elements `matches` selects. */
  ghost predicate Appends<S(!new)>(step: (Json, S) -> Result<S>, get: S -> seq<Json>, matches: Json -> bool, valueOf: Json -> Result<Json>) {
    forall x, s :: step(x, s).Ok? ==>
      if matches(x) then valueOf(x).Ok? && get(step(x, s).value) == get(s) + [valueOf(x).value]
      else get(step(x, s).value) == get(s)
  }

  /** The values of the selected elements, in document order. */
  ghost function Selected(xs: seq<Json>, matches: Json -> bool, valueOf: Json -> Result<Json>): seq<Json>
    decreases |xs|
  {
    if xs == [] then []
    else (if matches(xs[0]) && valueOf(xs[0]).Ok? then [valueOf(xs[0]).value] else [])
         + Selected(xs[1..], matches, valueOf)
  }

  lemma {:induction false} SelectedSnoc(xs: seq<Json>, x: Json, matches: Json -> bool, valueOf: Json -> Result<Json>)
    ensures Selected(xs + [x], matches, valueOf) ==
      Selected(xs, matches, valueOf) + (if matches(x) && valueOf(x).Ok? then [valueOf(x).value] else [])
    decreases |xs|
  {
    if xs == [] {
      assert [x][1..] == [];
    } else {
      assert (xs + [x])[1..] == xs[1..] + [x];
      SelectedSnoc(xs[1..], x, matches, valueOf);
    }
  }

  /** A loop whose body appends keeps every selected value, in document order. */
  lemma {:induction false} FoldAppends<S(!new)>(xs: seq<Json>, init: S, step: (Json, S) -> Result<S>,
                                               get: S -> seq<Json>, matches: Json -> bool, valueOf: Json -> Result<Json>)
    requires Appends(step, get, matches, valueOf)
    requires Fold(xs, init, step).Ok?
    ensures get(Fold(xs, init, step).value) == get(init) + Selected(xs, matches, valueOf)
    decreases |xs|
  {
    if xs != [] {
      var n := |xs| - 1;
      FoldAppends(xs[..n], init, step, get, matches, valueOf);
      SelectedSnoc(xs[..n], xs[n], matches, valueOf);
      assert xs[..n] + [xs[n]] == xs;
    }
  }

  /** The body maps the element through `f` and appends the result. */
  ghost predicate Maps<Y(!new)>(step: (Json, seq<Y>) -> Result<seq<Y>>, f: Json -> Result<Y>) {
    forall x, acc :: step(x, acc) == (if f(x).Ok? then Ok(acc + [f(x).value]) else Raise(f(x).error))
  }

  /** Such a loop completes exactly when every element maps, and then keeps count and order. */
  lemma {:induction false} FoldMaps<Y(!new)>(xs: seq<Json>, step: (Json, seq<Y>) -> Result<seq<Y>>, f: Json -> Result<Y>)
    requires Maps(step, f)
    ensures Fold(xs, [], step).Ok? <==> forall i :: 0 <= i < |xs| ==> f(xs[i]).Ok?
    ensures Fold(xs, [], step).Ok? ==>
      (|Fold(xs, [], step).value| == |xs| &&
       forall i :: 0 <= i < |xs| ==> Ok(Fold(xs, [], step).value[i]) == f(xs[i]))
    decreases |xs|
  {
    if xs != [] {
      var n := |xs| - 1;
      var prefix := xs[..n];
      FoldMaps(prefix, step, f);
      assert forall i :: 0 <= i < n ==> xs[i] == prefix[i];
      if Fold(prefix, [], step).Ok? {
        var ys := Fold(prefix, [], step).value;
        assert Fold(xs, [], step) == step(xs[n], ys);
      } else {
        var i :| 0 <= i < |prefix| && !f(prefix[i]).Ok?;
      }
    }
  }

  /** The body never changes what `get` reads. */
  ghost predicate Keeps<S(!new), X>(step: (Json, S) -> Result<S>, get: S -> X) {
    forall x, s :: step(x, s).Ok? ==> get(step(x, s).value) == get(s)
  }

  lemma {:induction false} FoldKeeps<S(!new), X>(xs: seq<Json>, init: S, step: (Json, S) -> Result<S>, get: S -> X)
    requires Keeps(step, get)
    requires Fold(xs, init, step).Ok?
    ensures get(Fold(xs, init, step).value) == get(init)
    decreases |xs|
  {
    if xs != [] {
      FoldKeeps(xs[..|xs| - 1], init, step, get);
    }
  }
}
