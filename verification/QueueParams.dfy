/** The parameters of queue names, and the names of session queues. */
module QueueParams {
  import opened Widths
  import Seqs
  import opened Outcomes
  import opened QueueNames

  datatype Param = Param(key: string, value: string)

  /** strings.Cut at the first "=". */
  function Cut(s: string): Option<Param>
  {
    if s == [] then None
    else if s[0] == '=' then Some(Param([], s[1..]))
    else
      match Cut(s[1..])
      case None => None
      case Some(p) => Some(Param([s[0]] + p.key, p.value))
  }

  /** The parameters among a component's parts. */
  function ParamsAmong(parts: seq<string>): seq<Param>
  {
    if parts == [] then []
    else (match Cut(Unescaped(parts[0])) { case Some(p) => [p] case None => [] }) + ParamsAmong(parts[1..])
  }

  /** visitComponentParams: the parameters of one component, in order. */
  function ParamsIn(component: string): seq<Param> { ParamsAmong(Split(component, SEMI)) }

  function ParamsOf(components: seq<string>): seq<Param>
  {
    if components == [] then [] else ParamsIn(components[0]) + ParamsOf(components[1..])
  }

  /** The parameters of a name: only components after a slash have any. */
  function Params(name: string): seq<Param> { ParamsOf(Split(name, SLASH)[1..]) }

  function ValuesOf(params: seq<Param>, key: string): seq<string>
  {
    if params == [] then []
    else (if params[0].key == key then [params[0].value] else []) + ValuesOf(params[1..], key)
  }

  lemma {:induction false} ParamsAppend(a: seq<string>, b: seq<string>)
    ensures ParamsOf(a + b) == ParamsOf(a) + ParamsOf(b)
  {
    if a == [] {
      assert a + b == b;
    } else {
      ParamsAppend(a[1..], b);
      assert (a + b)[1..] == a[1..] + b;
      Seqs.Assoc(ParamsIn(a[0]), ParamsOf(a[1..]), ParamsOf(b));
    }
  }

  lemma {:induction false} ValuesAppend(a: seq<Param>, b: seq<Param>, key: string)
    ensures ValuesOf(a + b, key) == ValuesOf(a, key) + ValuesOf(b, key)
  {
    if a == [] {
      assert a + b == b;
    } else {
      ValuesAppend(a[1..], b, key);
      assert (a + b)[1..] == a[1..] + b;
      Seqs.Assoc(if a[0].key == key then [a[0].value] else [], ValuesOf(a[1..], key), ValuesOf(b, key));
    }
  }

  function AtKey(params: map<string, seq<string>>, key: string): seq<string>
  {
    if key in params then params[key] else []
  }

  /** params collects each key's values, in order, and no key without any. */
  ghost predicate Collects(params: map<string, seq<string>>, all: seq<Param>)
  {
    forall key :: AtKey(params, key) == ValuesOf(all, key) && (key in params ==> params[key] != [])
  }

  lemma CollectsMore(params: map<string, seq<string>>, all: seq<Param>, p: Param)
    requires Collects(params, all)
    ensures Collects(params[p.key := AtKey(params, p.key) + [p.value]], all + [p])
  {
    forall key ensures ValuesOf(all + [p], key) == ValuesOf(all, key) + if p.key == key then [p.value] else [] {
      ValuesAppend(all, [p], key);
      assert [p][1..] == [];
    }
  }

  /** visitComponentParams, with a visitor that keeps all it is shown. */
  method ComponentParams(component: string) returns (params: seq<Param>)
    ensures params == ParamsIn(component)
  {
    params := [];
    var parts := SplitUnescaped(component, SEMI);
    for i := 0 to |parts|
      invariant params + ParamsAmong(parts[i..]) == ParamsIn(component)
    {
      var keyVal := Unescape(parts[i]);
      assert parts[i..][1..] == parts[i + 1..];
      var found := Cut(keyVal);
      if found.Some? {
        Seqs.Assoc(params, [found.value], ParamsAmong(parts[i + 1..]));
        params := params + [found.value];
      }
    }
  }

  /** One component's parameters join the others'. */
  method CollectFrom(params: map<string, seq<string>>, found: seq<Param>, ghost all: seq<Param>)
    returns (more: map<string, seq<string>>)
    requires Collects(params, all)
    ensures Collects(more, all + found)
  {
    more := params;
    ghost var seen := all;
    for j := 0 to |found|
      invariant Collects(more, seen) && seen == all + found[..j]
    {
      CollectsMore(more, seen, found[j]);
      assert seen + [found[j]] == all + found[..j + 1];
      more := more[found[j].key := AtKey(more, found[j].key) + [found[j].value]];
      seen := seen + [found[j]];
    }
    assert seen == all + found;
  }

  lemma ParamsGo(all: seq<Param>, parts: seq<string>, i: nat)
    requires i < |parts|
    ensures all + ParamsOf(parts[i..]) == (all + ParamsIn(parts[i])) + ParamsOf(parts[i + 1..])
  {
    assert parts[i..][1..] == parts[i + 1..];
    Seqs.Assoc(all, ParamsIn(parts[i]), ParamsOf(parts[i + 1..]));
  }

  method PathParams(name: string) returns (params: map<string, seq<string>>)
    ensures Collects(params, Params(name))
  {
    params := map[];
    ghost var all := [];
    var parts := SplitUnescaped(name, SLASH);
    for i := 1 to |parts|
      invariant Collects(params, all) && all + ParamsOf(parts[i..]) == Params(name)
    {
      var found := ComponentParams(parts[i]);
      ParamsGo(all, parts, i);
      params := CollectFrom(params, found, all);
      all := all + found;
    }
    assert parts[|parts|..] == [] && all + [] == all;
  }

  // ---------------------------------------------------------------- activation


  /** When a queue may be collected: not by policy, always, or from a time on. */
  datatype Activation = Absent | Always | At(seconds: int) | Malformed

  predicate AllDigits(s: string)
  {
    s != [] && forall i | 0 <= i < |s| :: '0' <= s[i] <= '9'
  }

  method IsAllDigits(s: string) returns (r: bool)
    ensures r == AllDigits(s)
  {
    for i := 0 to |s|
      invariant forall k | 0 <= k < i :: '0' <= s[k] <= '9'
    {
      if s[i] < '0' || s[i] > '9' {
        return false;
      }
    }
    r := s != "";
  }

  function Number(s: string): int
  {
    if s == [] then 0 else Number(s[..|s| - 1]) * 10 + (s[|s| - 1] as int - '0' as int)
  }

  function Digits(n: nat): (s: string)
    ensures AllDigits(s)
  {
    if n < 10 then [('0' as int + n) as char] else Digits(n / 10) + [('0' as int + n % 10) as char]
  }

  lemma {:induction false} DigitsNumber(n: nat)
    ensures Number(Digits(n)) == n
  {
    var s := Digits(n);
    if n < 10 {
      assert s[..0] == [];
    } else {
      DigitsNumber(n / 10);
      assert s[..|s| - 1] == Digits(n / 10);
    }
  }

  /** ParseGCActivation. stamp reads any value that is not a number of seconds. */
  function ParseActivation(value: string, stamp: string -> Activation): Activation
  {
    if value == [] then Always
    else if AllDigits(value) then (if Number(value) < TWO_63 then At(Number(value)) else Malformed)
    else stamp(value)
  }

  /** GCActivation: the last gc parameter decides. */
  function Activates(name: string, stamp: string -> Activation): Activation
  {
    var values := ValuesOf(Params(name), "gc");
    if values == [] then Absent else ParseActivation(values[|values| - 1], stamp)
  }

  // ---------------------------------------------------------------- folding

  predicate HasParam(component: string, key: string) { ValuesOf(ParamsIn(component), key) != [] }

  function Folded(component: string, key: string): string { if HasParam(component, key) then "*" else component }

  function FoldedAll(components: seq<string>, key: string): (r: seq<string>)
    ensures |r| == |components| && forall i | 0 <= i < |r| :: r[i] == Folded(components[i], key)
  {
    seq(|components|, i requires 0 <= i < |components| => Folded(components[i], key))
  }

  /** FoldPathParam. */
  function Fold(name: string, key: string): string
  {
    var parts := Split(name, SLASH);
    Join([parts[0]] + FoldedAll(parts[1..], key), SLASH)
  }

  method Has(component: string, key: string) returns (has: bool)
    ensures has == HasParam(component, key)
  {
    var found := ComponentParams(component);
    for j := 0 to |found|
      invariant ValuesOf(found, key) == ValuesOf(found[j..], key)
    {
      assert found[j..][1..] == found[j + 1..];
      if found[j].key == key {
        return true;
      }
    }
    has := false;
  }

  method FoldComponent(component: string, key: string) returns (folded: string)
    ensures folded == Folded(component, key)
  {
    var has := Has(component, key);
    folded := if has then "*" else component;
  }

  method FoldComponents(was: seq<string>, key: string) returns (parts: seq<string>)
    requires was != []
    ensures parts == [was[0]] + FoldedAll(was[1..], key)
  {
    ghost var rest := was[1..];
    ghost var folded := FoldedAll(rest, key);
    parts := was;
    for i := 1 to |was|
      invariant |parts| == |was| && parts[0] == was[0]
      invariant forall k | 1 <= k < i :: parts[k] == folded[k - 1]
      invariant forall k | i <= k < |was| :: parts[k] == was[k]
    {
      var f := FoldComponent(parts[i], key);
      assert rest[i - 1] == parts[i];
      parts := parts[i := f];
    }
  }

  method FoldPathParam(name: string, key: string) returns (folded: string)
    ensures folded == Fold(name, key)
  {
    var parts := SplitUnescaped(name, SLASH);
    parts := FoldComponents(parts, key);
    folded := Join(parts, SLASH);
  }

  lemma StarHasNone(key: string)
    ensures !HasParam("*", key) && Closed("*", SLASH, false) && !Pending("*", false)
  {
    var star := "*";
    assert star[1..] == [] && star == ['*'];
    assert Closed(star, SEMI, false);
    SplitWhole(star, SEMI);
    assert UnescapeFrom(star, false) == ['*'] + UnescapeFrom([], false);
    assert Cut(['*']) == None by { assert ['*'][1..] == []; }
    assert [star][1..] == [];
  }

  lemma FoldedParts(name: string, key: string)
    ensures var parts := Split(name, SLASH);
            Parts([parts[0]] + FoldedAll(parts[1..], key), SLASH)
  {
    SplitParts(name, SLASH, false);
    StarHasNone(key);
  }

  /** Folding a folded name changes nothing. */
  lemma FoldIdempotent(name: string, key: string)
    ensures Fold(Fold(name, key), key) == Fold(name, key)
  {
    var parts := Split(name, SLASH);
    var folded := [parts[0]] + FoldedAll(parts[1..], key);
    FoldedParts(name, key);
    SplitJoin(folded, SLASH);
    StarHasNone(key);
    assert folded[1..] == FoldedAll(parts[1..], key);
    assert FoldedAll(folded[1..], key) == folded[1..];
  }
}
