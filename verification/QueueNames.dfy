/** Queue names: paths whose components are escaped, and the parameters in them. */
module QueueNames {
  import opened Outcomes

  const SLASH := '/'
  const SEMI := ';'
  const BACKSLASH := '\\'

  // ---------------------------------------------------------------- escaping

  function EscapeChar(c: char): string
  {
    if c == SLASH || c == SEMI || c == BACKSLASH then [BACKSLASH, c] else [c]
  }

  /** EscapeComponent. */
  function Escape(s: string): string
  {
    if s == [] then [] else EscapeChar(s[0]) + Escape(s[1..])
  }

  /** Whether the character after s is escaped, if the first of s is as escaped says. */
  predicate Pending(s: string, escaped: bool)
    decreases |s|
  {
    if s == [] then escaped else Pending(s[1..], s[0] == BACKSLASH && !escaped)
  }

  /** No separator in s stands unescaped. */
  predicate Closed(s: string, sep: char, escaped: bool)
    decreases |s|
  {
    s == [] || ((s[0] == sep ==> escaped) && Closed(s[1..], sep, s[0] == BACKSLASH && !escaped))
  }

  function UnescapeFrom(s: string, escaped: bool): string
    decreases |s|
  {
    if s == [] then []
    else if escaped then [s[0]] + UnescapeFrom(s[1..], false)
    else if s[0] == BACKSLASH then UnescapeFrom(s[1..], true)
    else [s[0]] + UnescapeFrom(s[1..], false)
  }

  function Unescaped(s: string): string { UnescapeFrom(s, false) }

  /** unescape. */
  method Unescape(s: string) returns (value: string)
    ensures value == Unescaped(s)
  {
    value := [];
    var escaped := false;
    for i := 0 to |s|
      invariant Unescaped(s) == value + UnescapeFrom(s[i..], escaped)
    {
      var r := s[i];
      assert s[i..][1..] == s[i + 1..];
      if escaped {
        value, escaped := value + [r], false;
      } else if r == BACKSLASH {
        escaped := true;
      } else {
        value := value + [r];
      }
    }
  }

  lemma {:induction false} PendingAppend(a: string, b: string, escaped: bool)
    ensures Pending(a + b, escaped) == Pending(b, Pending(a, escaped))
    decreases |a|
  {
    if a == [] {
      assert a + b == b;
    } else {
      PendingAppend(a[1..], b, a[0] == BACKSLASH && !escaped);
      assert (a + b)[1..] == a[1..] + b;
    }
  }

  lemma {:induction false} ClosedAppend(a: string, b: string, sep: char, escaped: bool)
    ensures Closed(a + b, sep, escaped) <==> Closed(a, sep, escaped) && Closed(b, sep, Pending(a, escaped))
    decreases |a|
  {
    if a == [] {
      assert a + b == b;
    } else {
      ClosedAppend(a[1..], b, sep, a[0] == BACKSLASH && !escaped);
      assert (a + b)[1..] == a[1..] + b;
    }
  }

  lemma {:induction false} UnescapeAppend(a: string, b: string, escaped: bool)
    ensures UnescapeFrom(a + b, escaped) == UnescapeFrom(a, escaped) + UnescapeFrom(b, Pending(a, escaped))
    decreases |a|
  {
    if a == [] {
      assert a + b == b;
    } else {
      UnescapeAppend(a[1..], b, a[0] == BACKSLASH && !escaped);
      assert (a + b)[1..] == a[1..] + b;
    }
  }

  lemma EscapedChar(c: char)
    ensures Unescaped(EscapeChar(c)) == [c] && !Pending(EscapeChar(c), false)
    ensures Closed(EscapeChar(c), SLASH, false) && Closed(EscapeChar(c), SEMI, false)
  {
    var e := EscapeChar(c);
    if |e| == 2 {
      assert e[1..] == [c] && [c][1..] == [];
      assert Pending([c], true) == Pending([], false);
      assert UnescapeFrom([c], true) == [c] + UnescapeFrom([], false);
    } else {
      assert e == [c] && e[1..] == [];
      assert UnescapeFrom(e, false) == [c] + UnescapeFrom([], false);
    }
  }

  /** An escaped text holds no separator, leaves none after it escaped, and
      unescapes to what it was. */
  lemma {:induction false} EscapedText(s: string)
    ensures Unescaped(Escape(s)) == s && !Pending(Escape(s), false)
    ensures Closed(Escape(s), SLASH, false) && Closed(Escape(s), SEMI, false)
    decreases |s|
  {
    if s != [] {
      EscapedText(s[1..]);
      EscapedChar(s[0]);
      PendingAppend(EscapeChar(s[0]), Escape(s[1..]), false);
      ClosedAppend(EscapeChar(s[0]), Escape(s[1..]), SLASH, false);
      ClosedAppend(EscapeChar(s[0]), Escape(s[1..]), SEMI, false);
      UnescapeAppend(EscapeChar(s[0]), Escape(s[1..]), false);
    }
  }

  // ---------------------------------------------------------------- splitting

  function SplitFrom(s: string, sep: char, escaped: bool): (parts: seq<string>)
    ensures parts != []
    decreases |s|
  {
    if s == [] then [[]]
    else if s[0] == sep && !escaped then [[]] + SplitFrom(s[1..], sep, false)
    else
      var rest := SplitFrom(s[1..], sep, s[0] == BACKSLASH && !escaped);
      [[s[0]] + rest[0]] + rest[1..]
  }

  function Split(s: string, sep: char): (parts: seq<string>)
    ensures parts != []
  {
    SplitFrom(s, sep, false)
  }

  /** The first part grows by what came before it. */
  function Before(part: string, parts: seq<string>): seq<string>
    requires parts != []
  {
    [part + parts[0]] + parts[1..]
  }

  /** splitUnescaped. */
  method SplitUnescaped(s: string, sep: char) returns (parts: seq<string>)
    ensures parts == Split(s, sep)
  {
    parts := [];
    var part := [];
    var escaped := false;
    BeforeNothing(Split(s, sep));
    assert s[0..] == s;
    for i := 0 to |s|
      invariant Split(s, sep) == parts + Before(part, SplitFrom(s[i..], sep, escaped))
    {
      var r := s[i];
      assert s[i..][1..] == s[i + 1..];
      if r == sep && !escaped {
        SplitsHere(parts, part, SplitFrom(s[i + 1..], sep, false));
        parts, part := parts + [part], [];
        continue;
      }
      GrowsHere(part, r, SplitFrom(s[i + 1..], sep, r == BACKSLASH && !escaped));
      part := part + [r];
      escaped := r == BACKSLASH && !escaped;
    }
    assert s[|s|..] == [] && part + [] == part;
    parts := parts + [part];
  }

  lemma BeforeNothing(parts: seq<string>)
    requires parts != []
    ensures Before([], parts) == parts && [] + Before([], parts) == parts
  {
    assert [] + parts[0] == parts[0];
  }

  lemma SplitsHere(parts: seq<string>, part: string, rest: seq<string>)
    requires rest != []
    ensures parts + Before(part, [[]] + rest) == (parts + [part]) + Before([], rest)
  {
    BeforeNothing(rest);
    assert part + [] == part && ([[]] + rest)[1..] == rest;
  }

  lemma GrowsHere(part: string, r: char, rest: seq<string>)
    requires rest != []
    ensures Before(part, Before([r], rest)) == Before(part + [r], rest)
  {
    assert part + ([r] + rest[0]) == (part + [r]) + rest[0];
    assert Before([r], rest)[1..] == rest[1..];
  }

  /** A part without separators only makes the next one longer. */
  lemma {:induction false} SplitGrows(a: string, b: string, sep: char, escaped: bool)
    requires Closed(a, sep, escaped)
    ensures SplitFrom(a + b, sep, escaped) == Before(a, SplitFrom(b, sep, Pending(a, escaped)))
    decreases |a|
  {
    if a == [] {
      assert a + b == b;
      BeforeNothing(SplitFrom(b, sep, escaped));
    } else {
      var next := a[0] == BACKSLASH && !escaped;
      SplitGrows(a[1..], b, sep, next);
      assert (a + b)[1..] == a[1..] + b;
      var rest := SplitFrom(b, sep, Pending(a, escaped));
      assert [a[0]] + (a[1..] + rest[0]) == a + rest[0];
    }
  }

  /** A separator after a part that leaves nothing pending ends it. */
  lemma SplitEnds(a: string, b: string, sep: char)
    requires Closed(a, sep, false) && !Pending(a, false)
    ensures Split(a + ([sep] + b), sep) == [a] + Split(b, sep)
  {
    SplitGrows(a, [sep] + b, sep, false);
    assert ([sep] + b)[1..] == b;
    assert a + [] == a && ([[]] + Split(b, sep))[1..] == Split(b, sep);
  }

  lemma SplitWhole(a: string, sep: char)
    requires Closed(a, sep, false)
    ensures Split(a, sep) == [a]
  {
    SplitGrows(a, [], sep, false);
    assert a + [] == a;
  }

  /** strings.Join. */
  function Join(parts: seq<string>, sep: char): string
    requires parts != []
  {
    if |parts| == 1 then parts[0] else parts[0] + ([sep] + Join(parts[1..], sep))
  }

  /** Parts that splitting can give: none holds a separator, and only the last may
      leave an escape pending. */
  predicate Parts(parts: seq<string>, sep: char)
  {
    && parts != []
    && (forall i | 0 <= i < |parts| :: Closed(parts[i], sep, false))
    && (forall i | 0 <= i < |parts| - 1 :: !Pending(parts[i], false))
  }

  /** Splitting undoes joining. */
  lemma {:induction false} SplitJoin(parts: seq<string>, sep: char)
    requires Parts(parts, sep)
    ensures Split(Join(parts, sep), sep) == parts
    decreases |parts|
  {
    if |parts| == 1 {
      SplitWhole(parts[0], sep);
      assert parts == [parts[0]];
    } else {
      SplitJoin(parts[1..], sep);
      SplitEnds(parts[0], Join(parts[1..], sep), sep);
      assert parts == [parts[0]] + parts[1..];
    }
  }

  function EscapeAll(components: seq<string>): (r: seq<string>)
    ensures |r| == |components| && forall i | 0 <= i < |r| :: r[i] == Escape(components[i])
  {
    seq(|components|, i requires 0 <= i < |components| => Escape(components[i]))
  }

  /** Unescaping and splitting undo escaping and joining, for every list of
      components, whatever characters they hold. */
  lemma ComponentsRoundTrip(components: seq<string>, sep: char)
    requires components != [] && (sep == SLASH || sep == SEMI)
    ensures var parts := Split(Join(EscapeAll(components), sep), sep);
            |parts| == |components| && forall i | 0 <= i < |parts| :: Unescaped(parts[i]) == components[i]
  {
    forall i | 0 <= i < |components|
      ensures Closed(Escape(components[i]), sep, false) && !Pending(Escape(components[i]), false)
              && Unescaped(Escape(components[i])) == components[i]
    {
      EscapedText(components[i]);
    }
    SplitJoin(EscapeAll(components), sep);
  }

  /** What splitting gives are such parts, and joining them gives the text back. */
  lemma {:induction false} SplitParts(s: string, sep: char, escaped: bool)
    requires sep != BACKSLASH
    ensures var parts := SplitFrom(s, sep, escaped);
            && Closed(parts[0], sep, escaped) && (|parts| > 1 ==> !Pending(parts[0], escaped))
            && (forall i | 1 <= i < |parts| :: Closed(parts[i], sep, false))
            && (forall i | 1 <= i < |parts| - 1 :: !Pending(parts[i], false))
            && Join(parts, sep) == s
    decreases |s|
  {
    if s != [] {
      if s[0] == sep && !escaped {
        SplitParts(s[1..], sep, false);
        var rest := SplitFrom(s[1..], sep, false);
        assert ([[]] + rest)[1..] == rest;
      } else {
        var next := s[0] == BACKSLASH && !escaped;
        SplitParts(s[1..], sep, next);
        var rest := SplitFrom(s[1..], sep, next);
        var parts := Before([s[0]], rest);
        assert parts[0][1..] == rest[0];
        JoinBefore([s[0]], rest, sep);
      }
    }
  }

  lemma JoinBefore(part: string, parts: seq<string>, sep: char)
    requires parts != []
    ensures Join(Before(part, parts), sep) == part + Join(parts, sep)
  {
    if |parts| > 1 {
      assert Before(part, parts)[1..] == parts[1..];
      assert (part + parts[0]) + ([sep] + Join(parts[1..], sep)) == part + (parts[0] + ([sep] + Join(parts[1..], sep)));
    }
  }
}
