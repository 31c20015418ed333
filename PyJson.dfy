/** A JSON document as `json.load` hands it to Python, and the Python
    operations the pipeline applies to it: `dict.get`, subscripting, the `in`
    test, iteration, truthiness, `str()`/`repr()` and `dict.update`. An
    operation Python would raise on is a `Raise` carrying the exception's kind. */
module PyJson {
  import opened PyStr

  datatype Option<+T> = None | Some(value: T) {
    function GetOr(default: T): T {
      match this
      case Some(v) => v
      case None => default
    }
  }

  /** The kinds of exception the modelled code can raise. `ProgrammingError`
      is what `sqlite3` raises for a parameter of a type it cannot bind, and
      `OverflowError` what it raises for an integer outside 64 bits. */
  datatype PyError = AttributeError | TypeError | KeyError | ValueError | UnboundLocalError | ProgrammingError | OverflowError

  datatype Result<+T> = Ok(value: T) | Raise(error: PyError) {
    predicate IsFailure() {
      Raise?
    }

    /** Only ever applied to a `Raise`; total so that a failure branch the
        receiver's type already rules out needs no proof. */
    function PropagateFailure<U>(): Result<U> {
      Raise(if Raise? then error else TypeError)
    }

    function Extract(): T
      requires Ok?
    {
      value
    }
  }

  /** A JSON value. Objects keep their members in document order, as Python
      dicts keep insertion order. Numbers are integers. */
  datatype Json =
    | Null
    | Bool(b: bool)
    | Num(n: int)
    | Str(s: string)
    | Arr(items: seq<Json>)
    | Obj(fields: seq<(string, Json)>)

  const EmptyObj: Json := Obj([])

  /** The value bound to `k`; a later binding shadows an earlier one. */
  function Lookup(fs: seq<(string, Json)>, k: string): (r: Option<Json>)
    ensures r.Some? <==> exists i | 0 <= i < |fs| :: fs[i].0 == k
  {
    if fs == [] then None
    else if fs[|fs| - 1].0 == k then Some(fs[|fs| - 1].1)
    else
      var r := Lookup(fs[..|fs| - 1], k);
      assert forall i | 0 <= i < |fs| - 1 :: fs[..|fs| - 1][i] == fs[i];
      r
  }

  predicate HasKey(j: Json, k: string) {
    j.Obj? && Lookup(j.fields, k).Some?
  }

  /** `j.get(k, default)`: only a dict has a `get` method. */
  function Get(j: Json, k: string, default: Json): (r: Result<Json>)
    ensures r.Ok? <==> j.Obj?
    ensures HasKey(j, k) ==> r == Ok(Lookup(j.fields, k).value)
    ensures j.Obj? && !HasKey(j, k) ==> r == Ok(default)
  {
    if j.Obj? then Ok(Lookup(j.fields, k).GetOr(default)) else Raise(AttributeError)
  }

  /** `j[k]` with a string subscript. */
  function Index(j: Json, k: string): (r: Result<Json>)
    ensures r.Ok? <==> HasKey(j, k)
  {
    match j
    case Obj(fs) => if Lookup(fs, k).Some? then Ok(Lookup(fs, k).value) else Raise(KeyError)
    case _ => Raise(TypeError)
  }

  /** `k in j` with a string `k`: a key of a dict, an element of a list, a
      substring of a string; anything else is not a container. */
  function PyIn(k: string, j: Json): (r: Result<bool>)
    ensures j.Obj? ==> r == Ok(HasKey(j, k))
  {
    match j
    case Obj(fs) => Ok(Lookup(fs, k).Some?)
    case Arr(xs) => Ok(Str(k) in xs)
    case Str(s) => Ok(Contains(s, k))
    case _ => Raise(TypeError)
  }

  function Chars(s: string): (r: seq<Json>)
    ensures |r| == |s|
    ensures forall i | 0 <= i < |r| :: r[i] == Str([s[i]])
  {
    if s == [] then [] else [Str([s[0]])] + Chars(s[1..])
  }

  function KeyStrings(fs: seq<(string, Json)>): (r: seq<Json>)
    ensures |r| == |fs|
    ensures forall i | 0 <= i < |r| :: r[i] == Str(fs[i].0)
  {
    if fs == [] then [] else [Str(fs[0].0)] + KeyStrings(fs[1..])
  }

  /** What `for x in j` iterates over: a list's elements, a string's
      characters, a dict's keys; other values are not iterable. */
  function Items(j: Json): (r: Result<seq<Json>>)
    ensures j.Arr? ==> r == Ok(j.items)
    ensures r.Ok? <==> j.Arr? || j.Str? || j.Obj?
  {
    match j
    case Arr(xs) => Ok(xs)
    case Str(s) => Ok(Chars(s))
    case Obj(fs) => Ok(KeyStrings(fs))
    case _ => Raise(TypeError)
  }

  /** Python truthiness. */
  predicate Truthy(j: Json) {
    match j
    case Null => false
    case Bool(b) => b
    case Num(n) => n != 0
    case Str(s) => s != ""
    case Arr(xs) => xs != []
    case Obj(fs) => fs != []
  }

  /** The receiver of a string method: anything but a string has no such method. */
  function AsString(j: Json): (r: Result<string>)
    ensures r.Ok? <==> j.Str?
  {
    if j.Str? then Ok(j.s) else Raise(AttributeError)
  }

  function Escape(s: string, quote: char): string {
    if s == [] then ""
    else
      var c := s[0];
      var e :=
        if c == '\\' then "\\\\"
        else if c == quote then ['\\', quote]
        else if c == '\n' then "\\n"
        else if c == '\r' then "\\r"
        else if c == '\t' then "\\t"
        else [c];
      e + Escape(s[1..], quote)
  }

  /** `repr(s)` for a string: single quotes unless the text holds a single
      quote and no double quote. */
  function ReprString(s: string): string {
    var quote := if '\'' in s && '"' !in s then '"' else '\'';
    [quote] + Escape(s, quote) + [quote]
  }

  /** `repr(j)`. */
  function Repr(j: Json): string
    decreases j, 1
  {
    match j
    case Null => "None"
    case Bool(b) => if b then "True" else "False"
    case Num(n) => IntToString(n)
    case Str(s) => ReprString(s)
    case Arr(xs) => "[" + ReprItems(j, 0) + "]"
    case Obj(fs) => "{" + ReprFields(j, 0) + "}"
  }

  function ReprItems(j: Json, from: nat): string
    requires j.Arr?
    decreases j, 0, |j.items| - from
  {
    if from >= |j.items| then ""
    else
      assert j.items[from] in j.items;
      (if from == 0 then "" else ", ") + Repr(j.items[from]) + ReprItems(j, from + 1)
  }

  function ReprFields(j: Json, from: nat): string
    requires j.Obj?
    decreases j, 0, |j.fields| - from
  {
    if from >= |j.fields| then ""
    else
      assert j.fields[from] in j.fields;
      var (k, v) := j.fields[from];
      (if from == 0 then "" else ", ") + ReprString(k) + ": " + Repr(v) + ReprFields(j, from + 1)
  }

  /** `str(j)`, as an f-string renders a value. */
  function Show(j: Json): string {
    if j.Str? then j.s else Repr(j)
  }

  /** `d[k] = v` on an ordered dict: an existing key keeps its place. */
  function SetKey(fs: seq<(string, Json)>, k: string, v: Json): (r: seq<(string, Json)>)
    ensures Lookup(r, k) == Some(v)
    ensures forall k' | k' != k :: Lookup(r, k') == Lookup(fs, k')
  {
    if exists i | 0 <= i < |fs| :: fs[i].0 == k then Replace(fs, k, v)
    else
      var r := fs + [(k, v)];
      assert r[..|r| - 1] == fs;
      r
  }

  function Replace(fs: seq<(string, Json)>, k: string, v: Json): (r: seq<(string, Json)>)
    ensures |r| == |fs|
    ensures forall i | 0 <= i < |fs| :: r[i] == if fs[i].0 == k then (k, v) else fs[i]
    ensures forall k' | k' != k :: Lookup(r, k') == Lookup(fs, k')
    ensures (exists i | 0 <= i < |fs| :: fs[i].0 == k) ==> Lookup(r, k) == Some(v)
  {
    if fs == [] then []
    else
      var init := Replace(fs[..|fs| - 1], k, v);
      var last := if fs[|fs| - 1].0 == k then (k, v) else fs[|fs| - 1];
      var r := init + [last];
      assert r[..|r| - 1] == init;
      r
  }

  /** `d.update(other)` for a dict `other`: its members in order, later ones winning. */
  function UpdateWith(d: seq<(string, Json)>, other: seq<(string, Json)>): (r: seq<(string, Json)>)
    decreases |other|
  {
    if other == [] then d
    else
      UpdateWith(SetKey(d, other[0].0, other[0].1), other[1..])
  }

  /** After `d.update(other)`, a key bound in `other` holds `other`'s value for it. */
  lemma {:induction false} UpdateWithLookup(d: seq<(string, Json)>, other: seq<(string, Json)>, k: string)
    ensures Lookup(UpdateWith(d, other), k) == if Lookup(other, k).Some? then Lookup(other, k) else Lookup(d, k)
    decreases |other|
  {
    if other != [] {
      var d' := SetKey(d, other[0].0, other[0].1);
      UpdateWithLookup(d', other[1..], k);
      LookupFront(other, k);
    }
  }

  lemma {:induction false} LookupFront(fs: seq<(string, Json)>, k: string)
    requires fs != []
    ensures Lookup(fs, k) == if Lookup(fs[1..], k).Some? then Lookup(fs[1..], k)
                             else if fs[0].0 == k then Some(fs[0].1) else None
  {
    if |fs| > 1 {
      LookupFront(fs[..|fs| - 1], k);
      assert fs[..|fs| - 1][1..] == fs[1..][..|fs[1..]| - 1];
    }
  }

  /** A `for` loop over `xs` whose body may raise: `body` maps the loop state
      and the next element to the new state, and the first exception ends the
      loop and propagates. */
  function Loop<S, X>(body: (S, X) -> Result<S>, s: S, xs: seq<X>): Result<S> {
    if xs == [] then Ok(s)
    else
      var next :- body(s, xs[0]);
      Loop(body, next, xs[1..])
  }

  /** A loop over `xs + ys` is the loop over `xs` followed by the loop over `ys`. */
  lemma {:induction false} LoopAppend<S, X>(body: (S, X) -> Result<S>, s: S, xs: seq<X>, ys: seq<X>)
    ensures Loop(body, s, xs + ys) == (var mid :- Loop(body, s, xs); Loop(body, mid, ys))
  {
    if xs != [] {
      assert (xs + ys)[0] == xs[0];
      assert (xs + ys)[1..] == xs[1..] + ys;
      match body(s, xs[0])
      case Ok(next) => LoopAppend(body, next, xs[1..], ys);
      case Raise(_) =>
    } else {
      assert xs + ys == ys;
    }
  }

  /** One iteration of a loop that does not raise. */
  lemma LoopStep<S, X>(body: (S, X) -> Result<S>, s: S, xs: seq<X>, i: nat, next: S)
    requires i < |xs| && body(s, xs[i]) == Ok(next)
    ensures Loop(body, s, xs[i..]) == Loop(body, next, xs[i + 1..])
  {
    assert xs[i..][0] == xs[i] && xs[i..][1..] == xs[i + 1..];
  }

  /** The loop from index `i` runs iteration `i` and then the rest. */
  lemma LoopUnfold<S, X>(body: (S, X) -> Result<S>, s: S, xs: seq<X>, i: nat)
    requires i < |xs|
    ensures Loop(body, s, xs[i..]) == (var next :- body(s, xs[i]); Loop(body, next, xs[i + 1..]))
  {
    assert xs[i..][0] == xs[i] && xs[i..][1..] == xs[i + 1..];
  }

  /** A loop that completes splits at any index `k` into the iterations
      before `k`, iteration `k`, and the rest. */
  lemma LoopSplit<S, X>(body: (S, X) -> Result<S>, s: S, xs: seq<X>, k: nat, out: S)
    requires Loop(body, s, xs) == Ok(out) && k < |xs|
    ensures Loop(body, s, xs[..k]).Ok?
    ensures body(Loop(body, s, xs[..k]).value, xs[k]).Ok?
    ensures Loop(body, s, xs[..k + 1]) == body(Loop(body, s, xs[..k]).value, xs[k])
    ensures Loop(body, body(Loop(body, s, xs[..k]).value, xs[k]).value, xs[k + 1..]) == Ok(out)
  {
    assert xs == xs[..k] + xs[k..];
    LoopAppend(body, s, xs[..k], xs[k..]);
    var mid := Loop(body, s, xs[..k]).value;
    assert xs[k..][0] == xs[k] && xs[k..][1..] == xs[k + 1..];
    assert xs[..k + 1] == xs[..k] + [xs[k]];
    LoopAppend(body, s, xs[..k], [xs[k]]);
    assert [xs[k]][1..] == [];
  }

  /** `for x in xs: acc.append(f(x))`, where computing `f(x)` may raise. */
  function AppendEach<X, Y>(f: X -> Result<Y>, acc: seq<Y>, xs: seq<X>): Result<seq<Y>>
    decreases |xs|
  {
    if xs == [] then Ok(acc)
    else
      var y :- f(xs[0]);
      AppendEach(f, acc + [y], xs[1..])
  }

  /** A completed `AppendEach` keeps `acc` and adds exactly `f(x)` for each
      `x`, in order. */
  lemma {:induction false} AppendEachShape<X, Y>(f: X -> Result<Y>, acc: seq<Y>, xs: seq<X>, out: seq<Y>)
    requires AppendEach(f, acc, xs) == Ok(out)
    ensures |out| == |acc| + |xs| && out[..|acc|] == acc
    ensures forall j | 0 <= j < |xs| :: f(xs[j]) == Ok(out[|acc| + j])
    decreases |xs|
  {
    if xs != [] {
      var y := f(xs[0]).value;
      AppendEachShape(f, acc + [y], xs[1..], out);
      assert out[..|acc|] == out[..|acc| + 1][..|acc|];
      forall j | 0 <= j < |xs|
        ensures f(xs[j]) == Ok(out[|acc| + j])
      {
        if j > 0 {
          assert xs[j] == xs[1..][j - 1];
          assert |acc + [y]| + (j - 1) == |acc| + j;
        }
      }
    }
  }

  /** The loop runs to the end exactly when no element makes `f` raise. */
  lemma {:induction false} AppendEachOk<X, Y>(f: X -> Result<Y>, acc: seq<Y>, xs: seq<X>)
    ensures AppendEach(f, acc, xs).Ok? <==> forall x | x in xs :: f(x).Ok?
    decreases |xs|
  {
    if xs != [] {
      assert xs == [xs[0]] + xs[1..];
      if f(xs[0]).Ok? {
        AppendEachOk(f, acc + [f(xs[0]).value], xs[1..]);
      }
    }
  }

  /** `for x in xs: y = f(x); if y is not None: out.append(y)`. */
  function Collect<X, Y>(f: X -> Option<Y>, xs: seq<X>): (ys: seq<Y>)
    ensures |ys| <= |xs|
    decreases |xs|
  {
    if xs == [] then []
    else
      var rest := Collect(f, xs[..|xs| - 1]);
      match f(xs[|xs| - 1])
      case Some(y) => rest + [y]
      case None => rest
  }

  lemma {:induction false} CollectAppend<X, Y>(f: X -> Option<Y>, xs: seq<X>, ys: seq<X>)
    ensures Collect(f, xs + ys) == Collect(f, xs) + Collect(f, ys)
    decreases |ys|
  {
    if ys == [] {
      assert xs + ys == xs;
    } else {
      CollectAppend(f, xs, ys[..|ys| - 1]);
      assert (xs + ys)[..|xs + ys| - 1] == xs + ys[..|ys| - 1];
      assert (xs + ys)[|xs + ys| - 1] == ys[|ys| - 1];
    }
  }

  /** One more element of a loop over `xs`. */
  lemma CollectStep<X, Y>(f: X -> Option<Y>, xs: seq<X>, i: nat)
    requires i < |xs|
    ensures Collect(f, xs[..i + 1]) == Collect(f, xs[..i]) + if f(xs[i]).Some? then [f(xs[i]).value] else []
  {
    assert xs[..i + 1][..i] == xs[..i] && xs[..i + 1][i] == xs[i];
  }

  /** Everything collected is the value of `f` at an element of `xs`. */
  lemma {:induction false} CollectFrom<X, Y>(f: X -> Option<Y>, xs: seq<X>)
    ensures forall y | y in Collect(f, xs) :: exists x | x in xs :: f(x) == Some(y)
    decreases |xs|
  {
    if xs != [] {
      var init := xs[..|xs| - 1];
      CollectFrom(f, init);
      assert xs == init + [xs[|xs| - 1]];
    }
  }

  /** `[x for x in xs if keep(x)]`. */
  function Filter<T>(keep: T -> bool, xs: seq<T>): (r: seq<T>)
    ensures |r| <= |xs|
    ensures forall x | x in r :: keep(x) && x in xs
    decreases |xs|
  {
    if xs == [] then []
    else (if keep(xs[0]) then [xs[0]] else []) + Filter(keep, xs[1..])
  }

  lemma {:induction false} FilterAppend<T>(keep: T -> bool, xs: seq<T>, ys: seq<T>)
    ensures Filter(keep, xs + ys) == Filter(keep, xs) + Filter(keep, ys)
    decreases |xs|
  {
    if xs == [] {
      assert xs + ys == ys;
    } else {
      assert (xs + ys)[0] == xs[0] && (xs + ys)[1..] == xs[1..] + ys;
      FilterAppend(keep, xs[1..], ys);
    }
  }

  /** An element of `xs` that `keep` accepts is kept. */
  lemma {:induction false} FilterKeeps<T>(keep: T -> bool, xs: seq<T>, x: T)
    requires x in xs && keep(x)
    ensures x in Filter(keep, xs)
    decreases |xs|
  {
    if xs[0] != x {
      FilterKeeps(keep, xs[1..], x);
    }
  }

  /** Nothing is kept from a list none of whose elements `keep` accepts. */
  lemma {:induction false} FilterNone<T>(keep: T -> bool, xs: seq<T>)
    requires forall x | x in xs :: !keep(x)
    ensures Filter(keep, xs) == []
    decreases |xs|
  {
    if xs != [] {
      assert xs[0] in xs;
      FilterNone(keep, xs[1..]);
    }
  }

  /** A list all of whose elements `keep` accepts is kept whole. */
  lemma {:induction false} FilterAll<T>(keep: T -> bool, xs: seq<T>)
    requires forall x | x in xs :: keep(x)
    ensures Filter(keep, xs) == xs
    decreases |xs|
  {
    if xs != [] {
      assert xs[0] in xs;
      FilterAll(keep, xs[1..]);
      assert [xs[0]] + xs[1..] == xs;
    }
  }

  /** Filtering by a weaker condition first changes nothing. */
  lemma {:induction false} FilterFilter<T>(keep: T -> bool, weaker: T -> bool, xs: seq<T>)
    requires forall x | x in xs && keep(x) :: weaker(x)
    ensures Filter(keep, Filter(weaker, xs)) == Filter(keep, xs)
    decreases |xs|
  {
    if xs != [] {
      assert xs[0] in xs;
      FilterFilter(keep, weaker, xs[1..]);
      var head := if weaker(xs[0]) then [xs[0]] else [];
      FilterAppend(keep, head, Filter(weaker, xs[1..]));
      if weaker(xs[0]) {
        assert Filter(keep, head) == (if keep(xs[0]) then [xs[0]] else []) + Filter(keep, []);
      }
    }
  }

  /** A condition and its negation split a list between them. */
  lemma {:induction false} FilterSplit<T>(keep: T -> bool, drop: T -> bool, xs: seq<T>)
    requires forall x | x in xs :: drop(x) == !keep(x)
    ensures |Filter(keep, xs)| + |Filter(drop, xs)| == |xs|
    decreases |xs|
  {
    if xs != [] {
      assert xs[0] in xs;
      FilterSplit(keep, drop, xs[1..]);
    }
  }

  /** Filtering keeps each element at most as often as it occurs. */
  lemma {:induction false} FilterSubMultiset<T>(keep: T -> bool, xs: seq<T>)
    ensures multiset(Filter(keep, xs)) <= multiset(xs)
    decreases |xs|
  {
    if xs != [] {
      FilterSubMultiset(keep, xs[1..]);
      assert xs == [xs[0]] + xs[1..];
    }
  }
}
