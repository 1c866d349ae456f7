/**
  Query-string parameter decoding (test_sse_api.py): `prefix.name` keys are
  grouped into nested maps and every value is converted to a bool, int,
  float or string.

  Python's `int(s)` and `float(s)` on strings are not modelled character by
  character; they are given as partial functions in `NumberSyntax`.
*/
module QueryParams {
  import opened Wrappers

  /** A Python float: a finite value (taken as exact; rounding to the nearest
      double is not modelled), an infinity, or NaN, as `float("inf")`,
      `float("-infinity")` and `float("nan")` return. */
  datatype Float = Finite(x: real) | Infinity(negative: bool) | NaN

  /** A converted value: a Python bool, int, float or str. */
  datatype Scalar = BoolValue(b: bool) | IntValue(i: int) | FloatValue(f: Float) | StrValue(s: string)

  /** A top-level entry of the result: a value, or the group map built from
      the `prefix.name` keys that share a prefix. */
  datatype Param = Leaf(value: Scalar) | Group(members: map<string, Scalar>)

  /** `int(s)` and `float(s)`: None where Python raises `ValueError`. */
  datatype NumberSyntax = NumberSyntax(parseInt: string -> Option<int>, parseFloat: string -> Option<Float>)

  /** Item assignment on a prefix that already holds a value, not a group. */
  datatype ParseError = NotAGroup(prefix: string)

  type Params = map<string, Param>

  function LowerChar(c: char): char
  {
    if 'A' <= c <= 'Z' then (c as int + 32) as char else c
  }

  /** Lower-casing, as far as it matters for comparing with "true" and
      "false": no character outside A-Z lower-cases to an ASCII letter. */
  function Lower(s: string): string
  {
    seq(|s|, i requires 0 <= i < |s| => LowerChar(s[i]))
  }

  /** `convert_query_param_type`. */
  function Convert(syntax: NumberSyntax, value: string): (r: Scalar)
    // the boolean test comes first and decides by the lower-cased text alone
    ensures r.BoolValue? <==> Lower(value) == "true" || Lower(value) == "false"
    ensures r.BoolValue? ==> (r.b <==> Lower(value) == "true")
    // a value with a '.' is never an int
    ensures r.IntValue? ==> '.' !in value && syntax.parseInt(value) == Some(r.i)
    ensures r.FloatValue? ==>
      syntax.parseFloat(value) == Some(r.f) && ('.' in value || syntax.parseInt(value) == None)
    // a value nothing accepts comes back as it was
    ensures r.StrValue? ==>
      r.s == value && syntax.parseFloat(value) == None && ('.' in value || syntax.parseInt(value) == None)
  {
    var lower := Lower(value);
    if lower == "true" || lower == "false" then BoolValue(lower == "true")
    else if '.' !in value && syntax.parseInt(value).Some? then IntValue(syntax.parseInt(value).value)
    else if syntax.parseFloat(value).Some? then FloatValue(syntax.parseFloat(value).value)
    else StrValue(value)
  }

  predicate Dotted(key: string)
  {
    '.' in key
  }

  /** `key.split(".", 1)` on a key holding a '.'. */
  function SplitFirstDot(key: string): (r: (string, string))
    requires Dotted(key)
    ensures key == r.0 + "." + r.1
    ensures '.' !in r.0
  {
    if key[0] == '.' then ("", key[1..])
    else
      assert key == [key[0]] + key[1..];
      var (p, n) := SplitFirstDot(key[1..]);
      ([key[0]] + p, n)
  }

  /** Splitting at the first '.' undoes joining a dot-free prefix to a name. */
  lemma {:induction false} SplitJoined(prefix: string, name: string)
    requires '.' !in prefix
    ensures Dotted(prefix + "." + name)
    ensures SplitFirstDot(prefix + "." + name) == (prefix, name)
  {
    var key := prefix + "." + name;
    assert key[|prefix|] == '.';
    if prefix != [] {
      assert key[0] == prefix[0] && prefix[0] != '.';
      assert key[1..] == prefix[1..] + "." + name;
      SplitJoined(prefix[1..], name);
      assert [prefix[0]] + prefix[1..] == prefix;
    }
  }

  function PrefixOf(key: string): string
    requires Dotted(key)
  {
    SplitFirstDot(key).0
  }

  predicate LeafAt(acc: Params, k: string)
  {
    k in acc && acc[k].Leaf?
  }

  /** One iteration of the loop of `parse_prefixed_parameters`. */
  function Store(syntax: NumberSyntax, acc: Params, key: string, value: string): Result<Params, ParseError>
  {
    var converted := Convert(syntax, value);
    if Dotted(key) then
      var (prefix, name) := SplitFirstDot(key);
      if prefix !in acc then Ok(acc[prefix := Group(map[name := converted])])
      else if acc[prefix].Group? then Ok(acc[prefix := Group(acc[prefix].members[name := converted])])
      else Err(NotAGroup(prefix))
    else Ok(acc[key := Leaf(converted)])
  }

  /** The whole loop, from partial result `acc`, over the remaining pairs. */
  function ParseAll(syntax: NumberSyntax, acc: Params, ps: seq<(string, string)>): Result<Params, ParseError>
    decreases |ps|
  {
    if ps == [] then Ok(acc)
    else match Store(syntax, acc, ps[0].0, ps[0].1)
      case Err(e) => Err(e)
      case Ok(next) => ParseAll(syntax, next, ps[1..])
  }

  /** The pairs come from a dict: no key appears twice. */
  predicate DistinctKeys(ps: seq<(string, string)>)
  {
    forall i, j :: 0 <= i < j < |ps| ==> ps[i].0 != ps[j].0
  }

  /** `parse_prefixed_parameters`: fills one result map, key by key, in the
      order of the query, and stops at the first failing item assignment. */
  method ParsePrefixedParameters(syntax: NumberSyntax, ps: seq<(string, string)>)
    returns (r: Result<Params, ParseError>)
    requires DistinctKeys(ps)
    ensures r == ParseAll(syntax, map[], ps)
  {
    var result: Params := map[];
    var i := 0;
    while i < |ps|
      invariant 0 <= i <= |ps|
      invariant ParseAll(syntax, result, ps[i..]) == ParseAll(syntax, map[], ps)
    {
      assert ps[i..][0] == ps[i] && ps[i..][1..] == ps[i + 1..];
      var (key, value) := ps[i];
      ghost var stored := Store(syntax, result, key, value);
      var converted := Convert(syntax, value);
      if Dotted(key) {
        var (prefix, name) := SplitFirstDot(key);
        ghost var before := result;
        if prefix !in result {
          result := result[prefix := Group(map[])];
        }
        match result[prefix]
        case Leaf(_) =>
          return Err(NotAGroup(prefix));
        case Group(members) =>
          result := result[prefix := Group(members[name := converted])];
          if prefix !in before {
            assert members == map[];
            assert members[name := converted] == map[name := converted];
            assert result == before[prefix := Group(map[name := converted])];
          }
          assert stored == Ok(result);
      } else {
        result := result[key := Leaf(converted)];
      }
      i := i + 1;
    }
    assert ps[i..] == [];
    r := Ok(result);
  }

  // ---------------------------------------------------------------------------
  // When the parse fails

  /** Pair `j` is a dotted key whose prefix already holds a value when it is
      reached: in `acc`, or because an earlier pair has exactly that key. */
  predicate Clash(acc: Params, ps: seq<(string, string)>, j: int)
    requires 0 <= j < |ps|
  {
    Dotted(ps[j].0) &&
    (LeafAt(acc, PrefixOf(ps[j].0)) || exists i :: 0 <= i < j && ps[i].0 == PrefixOf(ps[j].0))
  }

  /** Storing a pair makes a key hold a value exactly when it held one before or
      the pair sets it directly: a dotted key never replaces a value. */
  lemma StoreLeaves(syntax: NumberSyntax, acc: Params, key: string, value: string, k: string)
    requires Store(syntax, acc, key, value).Ok?
    ensures LeafAt(Store(syntax, acc, key, value).value, k) <==> LeafAt(acc, k) || (!Dotted(key) && k == key)
  {
  }

  /** The parse fails exactly when some dotted key meets a prefix that holds a value. */
  lemma {:induction false} ParseFailsIffClash(syntax: NumberSyntax, acc: Params, ps: seq<(string, string)>)
    ensures ParseAll(syntax, acc, ps).Err? <==> exists j :: 0 <= j < |ps| && Clash(acc, ps, j)
    decreases |ps|
  {
    if ps != [] {
      var s := Store(syntax, acc, ps[0].0, ps[0].1);
      if s.Err? {
        assert Clash(acc, ps, 0);
      } else {
        var next := s.value;
        var t := ps[1..];
        ParseFailsIffClash(syntax, next, t);
        assert !Clash(acc, ps, 0);
        forall j | 1 <= j < |ps|
          ensures Clash(acc, ps, j) <==> Clash(next, t, j - 1)
        {
          if Dotted(ps[j].0) {
            var p := PrefixOf(ps[j].0);
            StoreLeaves(syntax, acc, ps[0].0, ps[0].1, p);
            assert p == ps[0].0 ==> !Dotted(ps[0].0);
            if exists i :: 0 <= i < j && ps[i].0 == p {
              var i :| 0 <= i < j && ps[i].0 == p;
              if i > 0 { assert t[i - 1].0 == p; }
            }
            if exists i :: 0 <= i < j - 1 && t[i].0 == p {
              var i :| 0 <= i < j - 1 && t[i].0 == p;
              assert ps[i + 1].0 == p;
            }
          }
        }
        if exists j :: 0 <= j < |t| && Clash(next, t, j) {
          var j :| 0 <= j < |t| && Clash(next, t, j);
          assert Clash(acc, ps, j + 1);
        }
        if exists j :: 0 <= j < |ps| && Clash(acc, ps, j) {
          var j :| 0 <= j < |ps| && Clash(acc, ps, j);
          assert Clash(next, t, j - 1);
        }
      }
    }
  }

  /** From an empty result: the parse fails exactly when a key `p.…` comes
      after the key `p` itself. */
  lemma ParseFailsIffValueThenGroup(syntax: NumberSyntax, ps: seq<(string, string)>)
    ensures ParseAll(syntax, map[], ps).Err? <==>
      exists i, j :: 0 <= i < j < |ps| && Dotted(ps[j].0) && ps[i].0 == PrefixOf(ps[j].0)
  {
    ParseFailsIffClash(syntax, map[], ps);
    if exists j :: 0 <= j < |ps| && Clash(map[], ps, j) {
      var j :| 0 <= j < |ps| && Clash(map[], ps, j);
      var i :| 0 <= i < j && ps[i].0 == PrefixOf(ps[j].0);
    }
    if exists i, j :: 0 <= i < j < |ps| && Dotted(ps[j].0) && ps[i].0 == PrefixOf(ps[j].0) {
      var i, j :| 0 <= i < j < |ps| && Dotted(ps[j].0) && ps[i].0 == PrefixOf(ps[j].0);
      assert Clash(map[], ps, j);
    }
  }

  // ---------------------------------------------------------------------------
  // What a successful parse stores

  /** Running the loop over `ps` is running it over `ps[..i]` and then, from
      that partial result, over `ps[i..]`. */
  lemma {:induction false} ParseAllSplit(syntax: NumberSyntax, acc: Params, ps: seq<(string, string)>, r: Params, i: nat)
    requires ParseAll(syntax, acc, ps) == Ok(r) && i <= |ps|
    ensures ParseAll(syntax, acc, ps[..i]).Ok?
    ensures ParseAll(syntax, ParseAll(syntax, acc, ps[..i]).value, ps[i..]) == Ok(r)
    decreases i
  {
    if i == 0 {
      assert ps[..0] == [] && ps[0..] == ps;
    } else {
      var stored := Store(syntax, acc, ps[0].0, ps[0].1);
      assert stored.Ok?;
      var next := stored.value;
      assert ParseAll(syntax, acc, ps) == ParseAll(syntax, next, ps[1..]);
      var pre := ps[..i];
      assert pre[0] == ps[0] && pre[1..] == ps[1..][..i - 1];
      assert ParseAll(syntax, acc, pre) == ParseAll(syntax, next, ps[1..][..i - 1]);
      assert ps[1..][i - 1..] == ps[i..];
      ParseAllSplit(syntax, next, ps[1..], r, i - 1);
    }
  }

  /** A key that holds a value keeps it while no later pair has that key. */
  lemma {:induction false} LeafKept(syntax: NumberSyntax, acc: Params, ps: seq<(string, string)>, r: Params, k: string)
    requires ParseAll(syntax, acc, ps) == Ok(r) && LeafAt(acc, k)
    requires forall j :: 0 <= j < |ps| ==> ps[j].0 != k
    ensures k in r && r[k] == acc[k]
    decreases |ps|
  {
    if ps != [] {
      var next := Store(syntax, acc, ps[0].0, ps[0].1).value;
      LeafKept(syntax, next, ps[1..], r, k);
    }
  }

  /** A member `n` of group `p` keeps its value while no later pair has the
      key `p` or the key `p.n`. */
  lemma {:induction false} MemberKept(syntax: NumberSyntax, acc: Params, ps: seq<(string, string)>, r: Params,
                                      p: string, n: string)
    requires ParseAll(syntax, acc, ps) == Ok(r)
    requires p in acc && acc[p].Group? && n in acc[p].members
    requires forall j :: 0 <= j < |ps| ==> ps[j].0 != p && ps[j].0 != p + "." + n
    ensures p in r && r[p].Group? && n in r[p].members && r[p].members[n] == acc[p].members[n]
    decreases |ps|
  {
    if ps != [] {
      var next := Store(syntax, acc, ps[0].0, ps[0].1).value;
      assert p in next && next[p].Group? && n in next[p].members && next[p].members[n] == acc[p].members[n];
      MemberKept(syntax, next, ps[1..], r, p, n);
    }
  }

  /** A key without a '.' ends up at the top level, holding its converted value. */
  lemma PlainKeyStored(syntax: NumberSyntax, ps: seq<(string, string)>, r: Params, i: nat)
    requires DistinctKeys(ps) && ParseAll(syntax, map[], ps) == Ok(r)
    requires i < |ps| && !Dotted(ps[i].0)
    ensures ps[i].0 in r && r[ps[i].0] == Leaf(Convert(syntax, ps[i].1))
  {
    ParseAllSplit(syntax, map[], ps, r, i);
    var before := ParseAll(syntax, map[], ps[..i]).value;
    assert ps[i..][0] == ps[i] && ps[i..][1..] == ps[i + 1..];
    var next := Store(syntax, before, ps[i].0, ps[i].1).value;
    LeafKept(syntax, next, ps[i + 1..], r, ps[i].0);
  }

  /** A key `p.n` ends up as member `n` of group `p`, holding its converted
      value, unless a later pair has the key `p` itself. */
  lemma DottedKeyStored(syntax: NumberSyntax, ps: seq<(string, string)>, r: Params, i: nat)
    requires DistinctKeys(ps) && ParseAll(syntax, map[], ps) == Ok(r)
    requires i < |ps| && Dotted(ps[i].0)
    requires forall j :: i < j < |ps| ==> ps[j].0 != PrefixOf(ps[i].0)
    ensures var (p, n) := SplitFirstDot(ps[i].0);
      p in r && r[p].Group? && n in r[p].members && r[p].members[n] == Convert(syntax, ps[i].1)
  {
    var (p, n) := SplitFirstDot(ps[i].0);
    ParseAllSplit(syntax, map[], ps, r, i);
    var before := ParseAll(syntax, map[], ps[..i]).value;
    assert ps[i..][0] == ps[i] && ps[i..][1..] == ps[i + 1..];
    var next := Store(syntax, before, ps[i].0, ps[i].1).value;
    MemberKept(syntax, next, ps[i + 1..], r, p, n);
  }

  /** Every value in `m`, at the top level or in a group, is the converted
      value of a pair of `ps` whose key leads to it. */
  ghost predicate Sourced(syntax: NumberSyntax, m: Params, ps: seq<(string, string)>)
  {
    && (forall k :: k in m && m[k].Leaf? ==>
          exists i :: 0 <= i < |ps| && ps[i].0 == k && m[k].value == Convert(syntax, ps[i].1))
    && (forall k, n :: k in m && m[k].Group? && n in m[k].members ==>
          exists i :: 0 <= i < |ps| && ps[i].0 == k + "." + n && m[k].members[n] == Convert(syntax, ps[i].1))
  }

  /** One more pair keeps every stored value traceable to its pair. */
  lemma StoreSourced(syntax: NumberSyntax, acc: Params, done: seq<(string, string)>, key: string, value: string)
    requires Sourced(syntax, acc, done) && Store(syntax, acc, key, value).Ok?
    ensures Sourced(syntax, Store(syntax, acc, key, value).value, done + [(key, value)])
  {
    var next := Store(syntax, acc, key, value).value;
    var all := done + [(key, value)];
    assert all[|done|] == (key, value);
    forall k | k in next && next[k].Leaf?
      ensures exists i :: 0 <= i < |all| && all[i].0 == k && next[k].value == Convert(syntax, all[i].1)
    {
      if !Dotted(key) && k == key {
        assert all[|done|].0 == k;
      } else {
        var i :| 0 <= i < |done| && done[i].0 == k && acc[k].value == Convert(syntax, done[i].1);
        assert all[i] == done[i];
      }
    }
    forall k, n | k in next && next[k].Group? && n in next[k].members
      ensures exists i :: 0 <= i < |all| && all[i].0 == k + "." + n && next[k].members[n] == Convert(syntax, all[i].1)
    {
      if Dotted(key) && SplitFirstDot(key) == (k, n) {
        assert all[|done|].0 == k + "." + n;
      } else {
        assert k in acc && acc[k].Group? && n in acc[k].members && next[k].members[n] == acc[k].members[n];
        var i :| 0 <= i < |done| && done[i].0 == k + "." + n && acc[k].members[n] == Convert(syntax, done[i].1);
        assert all[i] == done[i];
      }
    }
  }

  lemma {:induction false} ParseSourced(syntax: NumberSyntax, acc: Params, done: seq<(string, string)>,
                                        ps: seq<(string, string)>, r: Params)
    requires Sourced(syntax, acc, done) && ParseAll(syntax, acc, ps) == Ok(r)
    ensures Sourced(syntax, r, done + ps)
    decreases |ps|
  {
    if ps == [] {
      assert done + ps == done;
    } else {
      StoreSourced(syntax, acc, done, ps[0].0, ps[0].1);
      var next := Store(syntax, acc, ps[0].0, ps[0].1).value;
      ParseSourced(syntax, next, done + [ps[0]], ps[1..], r);
      assert done + [ps[0]] + ps[1..] == done + ps;
    }
  }

  /** Every value of a successful parse is the converted value of the pair
      whose key leads to it: `k` for a top-level value, `p.n` for member `n`
      of group `p`. */
  lemma EveryStoredValueIsConverted(syntax: NumberSyntax, ps: seq<(string, string)>, r: Params)
    requires ParseAll(syntax, map[], ps) == Ok(r)
    ensures Sourced(syntax, r, ps)
  {
    ParseSourced(syntax, map[], [], ps, r);
    assert [] + ps == ps;
  }
}
