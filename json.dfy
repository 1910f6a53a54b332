/** JSON values as the agent's Python code reads them: dictionary lookup and assignment,
    truthiness, `str()`, `len()`, iteration and `join`, pydantic's field coercions, and the
    exception each of these raises when a value does not support it. */
module Json {
  import opened Wrappers
  import opened Schemas
  import opened Text

  /** The Python exceptions the modelled code can raise. `ModelError` is anything a model
      call or its client raises, with its `str(e)`; for the others the kind is kept and the
      message text is not. */
  datatype Exc =
    | ModelError(reason: string)
    | AttributeError
    | TypeError
    | ValidationError
    | IndexError
    | ObjectChild

  type Entries = seq<(string, Value)>

  // ---------------------------------------------------------------- dictionaries

  /** `k in d` and `d[k]`: the value of the last entry for `k`, as `json.loads` keeps it. */
  function Lookup(d: Entries, k: string): (r: Option<Value>)
    ensures r.Some? <==> exists i :: 0 <= i < |d| && d[i].0 == k
    ensures r.Some? ==> exists i :: 0 <= i < |d| && d[i] == (k, r.value)
  {
    if d == [] then None
    else if d[|d| - 1].0 == k then Some(d[|d| - 1].1)
    else
      var r := Lookup(d[..|d| - 1], k);
      assert forall i :: 0 <= i < |d| - 1 ==> d[..|d| - 1][i] == d[i];
      r
  }

  /** An entry that no later entry overrides is what lookup finds. */
  lemma {:induction false} LookupAt(d: Entries, i: nat)
    requires i < |d| && forall j :: i < j < |d| ==> d[j].0 != d[i].0
    ensures Lookup(d, d[i].0) == Some(d[i].1)
    decreases |d|
  {
    if i < |d| - 1 {
      assert d[..|d| - 1][i] == d[i];
      LookupAt(d[..|d| - 1], i);
    }
  }

  function ReplaceAll(d: Entries, k: string, v: Value): (r: Entries)
    ensures |r| == |d|
    ensures forall i :: 0 <= i < |d| ==> r[i] == if d[i].0 == k then (k, v) else d[i]
  {
    seq(|d|, i requires 0 <= i < |d| => if d[i].0 == k then (k, v) else d[i])
  }

  lemma {:induction false} LookupReplaceAll(d: Entries, k: string, v: Value, key: string)
    ensures Lookup(ReplaceAll(d, k, v), key) == if key == k && Lookup(d, k).Some? then Some(v) else Lookup(d, key)
  {
    if d != [] {
      var n := |d| - 1;
      assert ReplaceAll(d, k, v)[..n] == ReplaceAll(d[..n], k, v);
      LookupReplaceAll(d[..n], k, v, key);
    }
  }

  /** `d[k] = v`: a key already present keeps its place and takes the new value; a new key
      is appended. Every other key keeps its value. */
  function Assign(d: Entries, k: string, v: Value): (r: Entries)
    ensures Lookup(r, k) == Some(v)
    ensures forall key :: key != k ==> Lookup(r, key) == Lookup(d, key)
    ensures Lookup(d, k).Some? ==> |r| == |d| && forall i :: 0 <= i < |d| ==> r[i].0 == d[i].0
    ensures Lookup(d, k).None? ==> r == d + [(k, v)]
  {
    if Lookup(d, k).Some? then
      AssignExisting(d, k, v);
      ReplaceAll(d, k, v)
    else
      assert (d + [(k, v)])[..|d|] == d;
      d + [(k, v)]
  }

  lemma AssignExisting(d: Entries, k: string, v: Value)
    requires Lookup(d, k).Some?
    ensures forall key :: Lookup(ReplaceAll(d, k, v), key) == if key == k then Some(v) else Lookup(d, key)
  {
    forall key ensures Lookup(ReplaceAll(d, k, v), key) == if key == k then Some(v) else Lookup(d, key) {
      LookupReplaceAll(d, k, v, key);
    }
  }

  /** The dictionary as a map from each key to its value. */
  function ToMap(d: Entries): (m: map<string, Value>)
    ensures forall k :: k in m <==> Lookup(d, k).Some?
    ensures forall k :: k in m ==> Lookup(d, k) == Some(m[k])
  {
    if d == [] then map[]
    else
      var m := ToMap(d[..|d| - 1]);
      assert forall k :: k != d[|d| - 1].0 ==> Lookup(d, k) == Lookup(d[..|d| - 1], k);
      m[d[|d| - 1].0 := d[|d| - 1].1]
  }

  /** The keys of the dictionary `json.loads` builds from `d`: each key once, at the place
      of its first occurrence (a repeated key keeps its place and takes the later value). */
  function Keys(d: Entries): (ks: seq<string>)
    ensures forall k :: k in ks <==> Lookup(d, k).Some?
    ensures forall i, j :: 0 <= i < j < |ks| ==> ks[i] != ks[j]
    ensures |ks| <= |d|
    decreases |d|
  {
    if d == [] then []
    else
      var prev := Keys(d[..|d| - 1]);
      var k := d[|d| - 1].0;
      assert forall key :: key != k ==> Lookup(d, key) == Lookup(d[..|d| - 1], key);
      if k in prev then prev else prev + [k]
  }

  /** The position of the entry whose value `d[k]` gives. */
  function LastIndex(d: Entries, k: string): (i: nat)
    requires Lookup(d, k).Some?
    ensures i < |d| && d[i].0 == k && Lookup(d, k) == Some(d[i].1)
    decreases |d|
  {
    if d[|d| - 1].0 == k then |d| - 1
    else
      var i := LastIndex(d[..|d| - 1], k);
      assert d[..|d| - 1][i] == d[i];
      i
  }

  /** Without a repeated key, the dictionary keeps every entry's key, in order. */
  lemma {:induction false} KeysWithoutRepeats(d: Entries)
    requires forall i, j :: 0 <= i < j < |d| ==> d[i].0 != d[j].0
    ensures Keys(d) == seq(|d|, i requires 0 <= i < |d| => d[i].0)
    decreases |d|
  {
    if d != [] {
      var n := |d| - 1;
      KeysWithoutRepeats(d[..n]);
      assert forall i :: 0 <= i < n ==> d[..n][i].0 != d[n].0;
    }
  }

  /** `d[k] = v` keeps the order of the keys: a present key stays where it is, a new one
      comes last. */
  lemma {:induction false} KeysAssign(d: Entries, k: string, v: Value)
    ensures Lookup(d, k).Some? ==> Keys(Assign(d, k, v)) == Keys(d)
    ensures Lookup(d, k).None? ==> Keys(Assign(d, k, v)) == Keys(d) + [k]
  {
    if Lookup(d, k).Some? {
      KeysReplaceAll(d, k, v);
    } else {
      var r := d + [(k, v)];
      assert r[..|r| - 1] == d;
    }
  }

  lemma {:induction false} KeysReplaceAll(d: Entries, k: string, v: Value)
    ensures Keys(ReplaceAll(d, k, v)) == Keys(d)
    decreases |d|
  {
    if d != [] {
      var n := |d| - 1;
      var r := ReplaceAll(d, k, v);
      assert r[..n] == ReplaceAll(d[..n], k, v);
      KeysReplaceAll(d[..n], k, v);
      assert r[n].0 == d[n].0;
      LookupReplaceAll(d[..n], k, v, d[n].0);
    }
  }

  /** The distinct keys are as many as the keys of the map the dictionary stands for, so
      `len` counts a repeated key once. */
  lemma KeysCount(d: Entries)
    ensures |Keys(d)| == |ToMap(d)|
  {
    var ks := Keys(d);
    assert ToMap(d).Keys == set k | k in ks;
    DistinctCount(ks);
  }

  lemma {:induction false} DistinctCount(ks: seq<string>)
    requires forall i, j :: 0 <= i < j < |ks| ==> ks[i] != ks[j]
    ensures |set k | k in ks| == |ks|
  {
    if ks != [] {
      var n := |ks| - 1;
      DistinctCount(ks[..n]);
      assert ks[n] !in ks[..n];
      assert (set k | k in ks) == (set k | k in ks[..n]) + {ks[n]};
    }
  }

  /** `v.get(k, default)`; only a dictionary has `get`. */
  function Get(v: Value, k: string, default: Value): Result<Value, Exc> {
    if v.Dict? then Ok(Lookup(v.entries, k).GetOr(default)) else Err(AttributeError)
  }

  // ---------------------------------------------------------------- truthiness, str, len

  /** Python's `bool(v)`: empty text, empty containers, zero, `False` and `None` are false. */
  predicate Truthy(v: Value) {
    match v
    case Null => false
    case Bool(b) => b
    case Int(i) => i != 0
    case Str(s) => s != ""
    case List(xs) => xs != []
    case Dict(d) => d != []
  }

  /** Decimal text of an integer, as `str(i)` writes it. */
  function IntText(i: int): (s: string)
    ensures s != []
  {
    if i < 0 then "-" + NatToString(-i) else NatToString(i)
  }

  function EscapeChar(c: char, q: char): string {
    if c == '\\' || c == q then ['\\', c]
    else if c == '\n' then "\\n"
    else if c == '\r' then "\\r"
    else if c == '\t' then "\\t"
    else [c]
  }

  function Escaped(s: string, q: char): string {
    if s == [] then [] else EscapeChar(s[0], q) + Escaped(s[1..], q)
  }

  /** `repr(s)`: single quotes unless the text holds a single quote and no double quote. */
  function Quote(s: string): (r: string)
    ensures |r| >= 2 && r[0] == r[|r| - 1] && r[0] in {'\'', '"'}
  {
    var q := if '\'' in s && '"' !in s then '"' else '\'';
    [q] + Escaped(s, q) + [q]
  }

  /** `repr(v)`; a dictionary shows each key once, with its value. */
  function Repr(v: Value): string
    decreases v
  {
    match v
    case Null => "None"
    case Bool(b) => if b then "True" else "False"
    case Int(i) => IntText(i)
    case Str(s) => Quote(s)
    case List(xs) => "[" + Join(seq(|xs|, i requires 0 <= i < |xs| => Repr(xs[i])), ", ") + "]"
    case Dict(d) =>
      var ks := Keys(d);
      "{" + Join(seq(|ks|, i requires 0 <= i < |ks| =>
                   (var j := LastIndex(d, ks[i]); assert d[j].1 < d[j]; Quote(ks[i]) + ": " + Repr(d[j].1))), ", ") + "}"
  }

  /** `str(v)`, which an f-string writes: text as it is, everything else as its `repr`. */
  function Show(v: Value): (s: string)
    ensures v.Str? ==> s == v.s
    ensures v.Null? ==> s == "None"
  {
    if v.Str? then v.s else Repr(v)
  }

  /** `len(v)`: only text and containers have a length; a dictionary's is its number of
      distinct keys. */
  function Len(v: Value): (r: Result<nat, Exc>)
    ensures r.Ok? <==> v.Str? || v.List? || v.Dict?
    ensures v.Dict? ==> r == Ok(|ToMap(v.entries)|)
    ensures v.List? ==> r == Ok(|v.items|)
    ensures v.Str? ==> r == Ok(|v.s|)
  {
    match v
    case Str(s) => Ok(|s|)
    case List(xs) => Ok(|xs|)
    case Dict(d) => KeysCount(d); Ok(|Keys(d)|)
    case _ => Err(TypeError)
  }

  /** What `for x in v` visits: a list's items, a text's characters, a dictionary's
      distinct keys. */
  function Items(v: Value): (r: Result<seq<Value>, Exc>)
    ensures r.Ok? <==> v.Str? || v.List? || v.Dict?
    ensures r.Ok? ==> Len(v) == Ok(|r.value|)
    ensures v.List? ==> r == Ok(v.items)
    ensures v.Dict? ==> r.Ok? && forall x :: x in r.value <==> x.Str? && Lookup(v.entries, x.s).Some?
  {
    match v
    case List(xs) => Ok(xs)
    case Str(s) => Ok(seq(|s|, i requires 0 <= i < |s| => Str([s[i]])))
    case Dict(d) =>
      var ks := Keys(d);
      var r := seq(|ks|, i requires 0 <= i < |ks| => Str(ks[i]));
      assert forall x :: x in r <==> x.Str? && x.s in ks by {
        forall x ensures x in r <==> x.Str? && x.s in ks {
          if x.Str? && x.s in ks {
            var i :| 0 <= i < |ks| && ks[i] == x.s;
            assert r[i] == x;
          }
        }
      }
      Ok(r)
    case _ => Err(TypeError)
  }

  predicate AllText(xs: seq<Value>) {
    forall i :: 0 <= i < |xs| ==> xs[i].Str?
  }

  function Texts(xs: seq<Value>): (ts: seq<string>)
    requires AllText(xs)
    ensures |ts| == |xs| && forall i :: 0 <= i < |xs| ==> ts[i] == xs[i].s
  {
    seq(|xs|, i requires 0 <= i < |xs| => xs[i].s)
  }

  /** `sep.join(v)`: every item visited must be text. */
  function JoinText(v: Value, sep: string): (r: Result<string, Exc>)
    ensures r.Ok? <==> Items(v).Ok? && AllText(Items(v).value)
    ensures v.List? && AllText(v.items) ==> r == Ok(Join(Texts(v.items), sep))
  {
    match Items(v)
    case Err(e) => Err(e)
    case Ok(xs) => if AllText(xs) then Ok(Join(Texts(xs), sep)) else Err(TypeError)
  }

  // ---------------------------------------------------------------- pydantic fields

  /** An `Optional[str]` field: `None` or text; anything else is rejected. */
  function OptTextField(v: Value): (r: Result<Option<string>, Exc>)
    ensures r.Ok? <==> v.Null? || v.Str?
    ensures v.Str? ==> r == Ok(Some(v.s))
  {
    match v
    case Null => Ok(None)
    case Str(s) => Ok(Some(s))
    case _ => Err(ValidationError)
  }

  /** A required `str` field: absent or not text is rejected. */
  function TextField(v: Option<Value>): (r: Result<string, Exc>)
    ensures r.Ok? <==> v.Some? && v.value.Str?
  {
    if v.Some? && v.value.Str? then Ok(v.value.s) else Err(ValidationError)
  }

  function DigitsValue(s: string): nat
    requires forall i :: 0 <= i < |s| ==> '0' <= s[i] <= '9'
  {
    if s == [] then 0 else DigitsValue(s[..|s| - 1]) * 10 + (s[|s| - 1] as int - '0' as int)
  }

  predicate IsDigits(s: string) {
    s != [] && forall i :: 0 <= i < |s| ==> '0' <= s[i] <= '9'
  }

  /** An `int` field in pydantic's lax mode: integers, booleans as 0 and 1, and text of an
      optionally signed run of decimal digits. */
  function IntField(v: Value): (r: Result<int, Exc>)
    ensures v.Int? ==> r == Ok(v.i)
    ensures v.Null? || v.List? || v.Dict? ==> r.Err?
  {
    match v
    case Int(i) => Ok(i)
    case Bool(b) => Ok(if b then 1 else 0)
    case Str(s) =>
      if IsDigits(s) then Ok(DigitsValue(s))
      else if |s| > 1 && s[0] == '+' && IsDigits(s[1..]) then Ok(DigitsValue(s[1..]))
      else if |s| > 1 && s[0] == '-' && IsDigits(s[1..]) then Ok(0 - DigitsValue(s[1..]) as int)
      else Err(ValidationError)
    case _ => Err(ValidationError)
  }

  /** Decimal text reads back as the number it was written from. */
  lemma {:induction false} DigitsRoundTrip(n: nat)
    ensures IsDigits(NatToString(n)) && DigitsValue(NatToString(n)) == n
  {
    if n >= 10 {
      DigitsRoundTrip(n / 10);
      var p, d := NatToString(n / 10), DigitChar(n % 10);
      var s := p + [d];
      assert s[..|s| - 1] == p;
      assert s == NatToString(n);
      assert d as int - '0' as int == n % 10 by {
        assert "0123456789"[n % 10] as int == '0' as int + n % 10;
      }
    } else {
      assert "0123456789"[n] as int == '0' as int + n;
    }
  }

  /** An integer given as its decimal text passes an `int` field unchanged. */
  lemma IntTextField(i: int)
    ensures IntField(Str(IntText(i))) == Ok(i)
  {
    if i < 0 {
      NegativeTextField(i);
    } else {
      DigitsTextField(i);
    }
  }

  lemma NegativeTextField(i: int)
    requires i < 0
    ensures IntField(Str(IntText(i))) == Ok(i)
  {
    MinusDigitsField(-i);
  }

  /** A minus sign followed by the digits of `n` is read as `-n`. */
  lemma MinusDigitsField(n: nat)
    ensures IntField(Str("-" + NatToString(n))) == Ok(0 - n)
  {
    DigitsRoundTrip(n);
    var p := NatToString(n);
    var s := "-" + p;
    assert s[1..] == p && s[0] == '-';
  }

  lemma DigitsTextField(i: int)
    requires i >= 0
    ensures IntField(Str(IntText(i))) == Ok(i)
  {
    DigitsRoundTrip(i);
  }

  // ---------------------------------------------------------------- comprehensions

  /** A Python list comprehension, or a JavaScript `map`, over `xs`: the first item `make`
      rejects raises (throws) and ends it. */
  function MapAll<T>(xs: seq<Value>, make: Value -> Result<T, Exc>): (r: Result<seq<T>, Exc>)
    ensures r.Ok? ==> |r.value| == |xs| && forall i :: 0 <= i < |xs| ==> make(xs[i]) == Ok(r.value[i])
    ensures r.Err? ==> exists i :: 0 <= i < |xs| && make(xs[i]) == Err(r.error)
    decreases |xs|
  {
    if xs == [] then Ok([])
    else
      var prev := MapAll(xs[..|xs| - 1], make);
      var last := make(xs[|xs| - 1]);
      if prev.Err? then Err(prev.error)
      else if last.Err? then Err(last.error)
      else Ok(prev.value + [last.value])
  }

  /** One more item: the comprehension over `xs[..i + 1]` is the one over `xs[..i]` followed
      by `make(xs[i])`, unless one of them raised. */
  lemma MapAllStep<T>(xs: seq<Value>, i: nat, make: Value -> Result<T, Exc>)
    requires i < |xs|
    ensures MapAll(xs[..i], make).Err? ==> MapAll(xs[..i + 1], make) == MapAll(xs[..i], make)
    ensures MapAll(xs[..i], make).Ok? && make(xs[i]).Err? ==> MapAll(xs[..i + 1], make) == Err(make(xs[i]).error)
    ensures MapAll(xs[..i], make).Ok? && make(xs[i]).Ok? ==>
              MapAll(xs[..i + 1], make) == Ok(MapAll(xs[..i], make).value + [make(xs[i]).value])
  {
    assert xs[..i + 1][..i] == xs[..i];
    assert xs[..i + 1][i] == xs[i];
  }

  /** Once a prefix of the list raises, the comprehension raises the same exception. */
  lemma {:induction false} MapAllPrefixErr<T>(xs: seq<Value>, k: nat, make: Value -> Result<T, Exc>)
    requires k <= |xs| && MapAll(xs[..k], make).Err?
    ensures MapAll(xs, make) == MapAll(xs[..k], make)
    decreases |xs|
  {
    if k == |xs| {
      assert xs[..k] == xs;
    } else {
      var n := |xs| - 1;
      assert xs[..n][..k] == xs[..k];
      MapAllPrefixErr(xs[..n], k, make);
    }
  }
}
