/**
 * Decoded JSON values, the Python exceptions the pipeline raises and catches,
 * and the handful of Python operations both services apply to them: `v[key]`,
 * `dict.get`, `str.split(sep)` and `str.split(sep, 1)`.
 */
module Values {
  import opened Wrappers

  /** A document as `json.loads` returns it; numbers are restricted to integers. */
  datatype Json =
    | JNull
    | JBool(b: bool)
    | JNum(n: int)
    | JStr(s: string)
    | JArr(items: seq<Json>)
    | JObj(fields: map<string, Json>)

  /** The exceptions that decide which path a request or a job takes. */
  datatype Exc =
    | JSONDecodeError        // json.loads on text that is not JSON
    | KeyError(key: string)  // a dict subscripted with an absent key
    | TypeError              // a subscript on something that is not a dict
    | AttributeError         // a method the value does not have (.get, .split)
    | ValueError             // unpacking a list of the wrong length
    | RedisError             // a Redis command that failed
    | Raised(name: string)   // anything else, e.g. raised by the GitHub client

  /** Python `v[key]`: a dict yields the value or raises KeyError, anything else raises TypeError. */
  function Subscript(v: Json, key: string): Result<Json, Exc> {
    match v
    case JObj(m) => if key in m then Success(m[key]) else Failure(KeyError(key))
    case _ => Failure(TypeError)
  }

  /** Python `v.get(key)`: None (JSON null) for an absent key; only dicts have `get`. */
  function DictGet(v: Json, key: string): Result<Json, Exc> {
    match v
    case JObj(m) => Success(if key in m then m[key] else JNull)
    case _ => Failure(AttributeError)
  }

  /** The value at `v[k1][k2]` exists: both levels are dicts holding the key. */
  predicate HasPath(v: Json, k1: string, k2: string) {
    v.JObj? && k1 in v.fields && v.fields[k1].JObj? && k2 in v.fields[k1].fields
  }

  /** Characters the hmac module accepts in a `str` digest. */
  predicate IsAscii(s: string) {
    forall i :: 0 <= i < |s| ==> s[i] < 128 as char
  }

  /** Python `s.split(sep, 1)`: the text before the first `sep` and the rest, or `[s]` when `sep` is absent. */
  function SplitOnce(s: string, sep: char): (parts: seq<string>)
    ensures 1 <= |parts| <= 2
    ensures |parts| == 2 <==> sep in s
    ensures |parts| == 1 ==> parts[0] == s
    ensures |parts| == 2 ==> s == parts[0] + [sep] + parts[1] && sep !in parts[0]
    decreases |s|
  {
    if s == [] then [s]
    else if s[0] == sep then [[], s[1..]]
    else
      var rest := SplitOnce(s[1..], sep);
      if |rest| == 1 then [s] else [[s[0]] + rest[0], rest[1]]
  }

  /** The first separator splits a text uniquely: `a` is the part before it whenever `a` holds no separator. */
  lemma {:induction false} SplitOnceAt(a: string, sep: char, b: string)
    requires sep !in a
    ensures SplitOnce(a + [sep] + b, sep) == [a, b]
  {
    var s := a + [sep] + b;
    var parts := SplitOnce(s, sep);
    assert s[|a|] == sep;
    assert |parts| == 2;
    PrefixBeforeSeparator(parts[0], parts[1], a, b, sep);
  }

  /** Two ways of writing a text as `x + [sep] + y` with no separator in `x` agree. */
  lemma {:induction false} PrefixBeforeSeparator(x: string, y: string, a: string, b: string, sep: char)
    requires sep !in x && sep !in a
    requires x + [sep] + y == a + [sep] + b
    ensures x == a && y == b
  {
    var s := x + [sep] + y;
    assert forall i :: 0 <= i < |x| ==> s[i] == x[i] != sep;
    assert forall i :: 0 <= i < |a| ==> s[i] == a[i] != sep;
    assert s[|x|] == sep && s[|a|] == sep;
    assert |x| == |a|;
    assert x == s[..|x|] && a == s[..|a|];
    assert y == s[|x| + 1..] && b == s[|a| + 1..];
  }

  /** Python `s.split(sep)` with an explicit one-character separator. */
  function Split(s: string, sep: char): (parts: seq<string>)
    ensures |parts| >= 1
    decreases |s|
  {
    if s == [] then [[]]
    else
      var rest := Split(s[1..], sep);
      if s[0] == sep then [[]] + rest else [[s[0]] + rest[0]] + rest[1..]
  }

  /** `sep.join(parts)`, the inverse of `Split`. */
  function Join(parts: seq<string>, sep: char): string
    decreases |parts|
  {
    if |parts| == 0 then []
    else if |parts| == 1 then parts[0]
    else parts[0] + [sep] + Join(parts[1..], sep)
  }

  /** Joining the parts with the separator gives back the text. */
  lemma {:induction false} JoinSplit(s: string, sep: char)
    ensures Join(Split(s, sep), sep) == s
    decreases |s|
  {
    if s != [] {
      var rest := Split(s[1..], sep);
      JoinSplit(s[1..], sep);
      if s[0] == sep {
        assert Split(s, sep) == [[]] + rest;
      } else if |rest| == 1 {
        assert Split(s, sep) == [[s[0]] + rest[0]];
      } else {
        var parts := Split(s, sep);
        assert parts == [[s[0]] + rest[0]] + rest[1..];
        assert parts[1..] == rest[1..];
        assert Join(rest, sep) == rest[0] + [sep] + Join(rest[1..], sep);
      }
    }
  }

  /** No part contains the separator, and there is one part more than there are separators. */
  lemma {:induction false} SplitParts(s: string, sep: char)
    ensures |Split(s, sep)| == multiset(s)[sep] + 1
    ensures forall i :: 0 <= i < |Split(s, sep)| ==> sep !in Split(s, sep)[i]
    decreases |s|
  {
    if s != [] {
      SplitParts(s[1..], sep);
      assert s == [s[0]] + s[1..];
      assert multiset(s) == multiset{s[0]} + multiset(s[1..]);
      var rest := Split(s[1..], sep);
      var parts := Split(s, sep);
      if s[0] == sep {
        assert parts == [[]] + rest;
        forall i | 0 <= i < |parts| ensures sep !in parts[i] {
          if i > 0 { assert parts[i] == rest[i - 1]; }
        }
      } else {
        assert parts == [[s[0]] + rest[0]] + rest[1..];
        forall i | 0 <= i < |parts| ensures sep !in parts[i] {
          if i > 0 { assert parts[i] == rest[i]; }
        }
      }
    }
  }

  /** Python `v.split(sep)` on a decoded value: only strings have `split`. */
  function StrSplit(v: Json, sep: char): Result<seq<string>, Exc> {
    match v
    case JStr(s) => Success(Split(s, sep))
    case _ => Failure(AttributeError)
  }

  /** Python `a, b = parts`: exactly two parts, otherwise ValueError. */
  function Unpack2(parts: seq<string>): Result<(string, string), Exc> {
    if |parts| == 2 then Success((parts[0], parts[1])) else Failure(ValueError)
  }

  /**
   * `owner, repo = s.split('/')` succeeds exactly when `s` holds one '/', and then
   * the two names put back together around it give `s`.
   */
  lemma OwnerRepoSplit(s: string)
    ensures Unpack2(Split(s, '/')).Success? <==> multiset(s)['/'] == 1
    ensures Unpack2(Split(s, '/')).Success? ==>
      var (owner, repo) := Unpack2(Split(s, '/')).value;
      owner + "/" + repo == s && '/' !in owner && '/' !in repo
  {
    SplitParts(s, '/');
    JoinSplit(s, '/');
    var parts := Split(s, '/');
    if |parts| == 2 {
      assert parts[1..] == [parts[1]];
      assert Join(parts, '/') == parts[0] + "/" + parts[1];
    }
  }
}
