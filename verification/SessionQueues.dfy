/** Session queues: a name made by sessionQueue keeps its session and its deadline,
    and folds to one name for all sessions. */
module SessionQueues {
  import opened Widths
  import opened Outcomes
  import opened QueueNames
  import opened QueueParams

  // ---------------------------------------------------------------- path.Join

  /** Splits at every slash, escaped or not, as path.Clean does. */
  function RawSplit(s: string): (parts: seq<string>)
    ensures parts != []
  {
    if s == [] then [[]]
    else if s[0] == SLASH then [[]] + RawSplit(s[1..])
    else Before([s[0]], RawSplit(s[1..]))
  }

  /** Not one of the parts that path.Clean removes. */
  predicate Ordinary(part: string) { part != "" && part != "." && part != ".." }

  predicate AllOrdinary(parts: seq<string>)
  {
    forall i | 0 <= i < |parts| :: Ordinary(parts[i])
  }

  /** path.Clean on the parts of a rooted path, onto those already cleaned. */
  function CleanOnto(done: seq<string>, parts: seq<string>): seq<string>
    decreases |parts|
  {
    if parts == [] then done
    else if parts[0] == "" || parts[0] == "." then CleanOnto(done, parts[1..])
    else if parts[0] == ".." then CleanOnto(if done == [] then [] else done[..|done| - 1], parts[1..])
    else CleanOnto(done + [parts[0]], parts[1..])
  }

  function Rooted(parts: seq<string>): string
  {
    [SLASH] + if parts == [] then [] else Join(parts, SLASH)
  }

  /** path.Clean of a rooted path. */
  function Clean(s: string): string { Rooted(CleanOnto([], RawSplit(s)[1..])) }

  predicate IsRooted(s: string) { s != [] && s[0] == SLASH }

  /** path.Join of three elements that are not empty. */
  function PathJoin(a: string, b: string, c: string): string
  {
    Clean(a + ([SLASH] + (b + ([SLASH] + c))))
  }

  lemma {:induction false} CleanOrdinary(done: seq<string>, parts: seq<string>)
    requires AllOrdinary(parts)
    ensures CleanOnto(done, parts) == done + parts
    decreases |parts|
  {
    if parts != [] {
      CleanOrdinary(done + [parts[0]], parts[1..]);
      assert (done + [parts[0]]) + parts[1..] == done + parts;
    }
  }

  lemma {:induction false} RawSplitJoin(a: string, b: string)
    ensures RawSplit(a + ([SLASH] + b)) == RawSplit(a) + RawSplit(b)
    decreases |a|
  {
    var s := a + ([SLASH] + b);
    if a == [] {
      assert s[1..] == b;
    } else {
      RawSplitJoin(a[1..], b);
      assert s[1..] == a[1..] + ([SLASH] + b);
      MoreParts([a[0]], RawSplit(a[1..]), RawSplit(b));
    }
  }

  lemma {:induction false} RawJoin(s: string)
    ensures Join(RawSplit(s), SLASH) == s
    decreases |s|
  {
    if s != [] {
      RawJoin(s[1..]);
      var rest := RawSplit(s[1..]);
      if s[0] == SLASH {
        assert ([[]] + rest)[1..] == rest;
      } else {
        JoinBefore([s[0]], rest, SLASH);
      }
    }
  }

  /** A rooted path all of whose parts are ordinary is already clean; so is the root. */
  predicate CleanPath(s: string)
  {
    IsRooted(s) && (s == [SLASH] || AllOrdinary(RawSplit(s)[1..]))
  }

  lemma RootedSplit(s: string)
    requires IsRooted(s)
    ensures RawSplit(s)[1..] == RawSplit(s[1..]) && s == [SLASH] + s[1..]
  {
  }

  lemma CleanStays(s: string)
    requires IsRooted(s) && s != [SLASH] && AllOrdinary(RawSplit(s)[1..])
    ensures Clean(s) == s
  {
    RootedSplit(s);
    CleanOrdinary([], RawSplit(s[1..]));
    assert [] + RawSplit(s[1..]) == RawSplit(s[1..]);
    RawJoin(s[1..]);
  }

  // ---------------------------------------------------------------- session queues

  /** The component that names a session and its deadline. */
  function SessionPart(session: string, at: nat): string
  {
    "sess=" + (Escape(session) + (";gc=" + Digits(at)))
  }

  /** sessionQueue. */
  function SessionQueue(prefix: string, session: string, at: nat, direction: string): string
  {
    PathJoin(prefix, SessionPart(session, at), direction)
  }

  /** A plain word, such as the directions of a lane. */
  predicate Word(s: string)
  {
    Ordinary(s) && forall i | 0 <= i < |s| :: s[i] != SLASH && s[i] != SEMI && s[i] != BACKSLASH && s[i] != '='
  }

  /** Holds something other than dots, so is ordinary. */
  predicate Solid(part: string) { exists i | 0 <= i < |part| :: part[i] != '.' }

  predicate AllSolid(parts: seq<string>) { forall i | 0 <= i < |parts| :: Solid(parts[i]) }

  lemma SolidOrdinary(part: string)
    requires Solid(part)
    ensures Ordinary(part)
  {
  }

  lemma SolidBefore(c: char, parts: seq<string>)
    requires parts != [] && AllSolid(parts)
    ensures AllSolid(Before([c], parts))
  {
    var i :| 0 <= i < |parts[0]| && parts[0][i] != '.';
    assert ([c] + parts[0])[i + 1] != '.';
  }

  /** Escaped text cannot make a part that path.Clean would remove: before each of
      its slashes stands a backslash. */
  lemma {:induction false} EscapedSolid(s: string, after: string)
    requires AllSolid(RawSplit(after))
    ensures AllSolid(RawSplit(Escape(s) + after))
    decreases |s|
  {
    if s == [] {
      assert Escape(s) + after == after;
    } else {
      EscapedSolid(s[1..], after);
      var rest := Escape(s[1..]) + after;
      assert Escape(s) + after == EscapeChar(s[0]) + rest;
      CharSolid(s[0], rest);
    }
  }

  lemma CharSolid(c: char, rest: string)
    requires AllSolid(RawSplit(rest))
    ensures AllSolid(RawSplit(EscapeChar(c) + rest))
  {
    var s := EscapeChar(c) + rest;
    if c == SLASH {
      assert s[1..] == [SLASH] + rest && ([SLASH] + rest)[1..] == rest;
      assert RawSplit(s) == [[BACKSLASH]] + RawSplit(rest) by {
        assert [BACKSLASH] + [] == [BACKSLASH] && ([[]] + RawSplit(rest))[1..] == RawSplit(rest);
      }
      assert [BACKSLASH][0] != '.';
    } else if c == SEMI || c == BACKSLASH {
      assert s[1..] == [c] + rest && ([c] + rest)[1..] == rest;
      SolidBefore(c, RawSplit(rest));
      SolidBefore(BACKSLASH, Before([c], RawSplit(rest)));
    } else {
      assert s[1..] == rest;
      SolidBefore(c, RawSplit(rest));
    }
  }

  lemma {:induction false} NoSlash(s: string)
    requires forall i | 0 <= i < |s| :: s[i] != SLASH
    ensures RawSplit(s) == [s]
    decreases |s|
  {
    if s != [] {
      NoSlash(s[1..]);
      assert [s[0]] + s[1..] == s;
    }
  }

  lemma {:induction false} TextSolid(text: string, after: string)
    requires (forall i | 0 <= i < |text| :: text[i] != SLASH) && AllSolid(RawSplit(after))
    ensures AllSolid(RawSplit(text + after))
    decreases |text|
  {
    if text == [] {
      assert text + after == after;
    } else {
      TextSolid(text[1..], after);
      assert (text + after)[1..] == text[1..] + after;
      SolidBefore(text[0], RawSplit(text[1..] + after));
    }
  }

  lemma SessionSolid(session: string, at: nat)
    ensures AllOrdinary(RawSplit(SessionPart(session, at)))
  {
    var tail := ";gc=" + Digits(at);
    assert tail[0] != '.';
    NoSlash(tail);
    EscapedSolid(session, tail);
    TextSolid("sess=", Escape(session) + tail);
    var parts := RawSplit(SessionPart(session, at));
    forall i | 0 <= i < |parts| ensures Ordinary(parts[i]) {
      SolidOrdinary(parts[i]);
    }
  }

  /** What comes before a slash that joins on to prefix. */
  function Stem(prefix: string): string { if prefix == [SLASH] then [] else prefix }

  /** Joining cleans nothing away. */
  lemma SessionQueueIs(prefix: string, session: string, at: nat, direction: string)
    requires CleanPath(prefix) && Word(direction)
    ensures SessionQueue(prefix, session, at, direction) ==
            Stem(prefix) + ([SLASH] + (SessionPart(session, at) + ([SLASH] + direction)))
  {
    var mid := SessionPart(session, at);
    var rest := mid + ([SLASH] + direction);
    SessionSolid(session, at);
    NoSlash(direction);
    RawSplitJoin(mid, direction);
    assert AllOrdinary(RawSplit(rest));
    if prefix == [SLASH] {
      RootJoins(rest);
    } else {
      var whole := prefix + ([SLASH] + rest);
      RawSplitJoin(prefix, rest);
      assert RawSplit(whole)[1..] == RawSplit(prefix)[1..] + RawSplit(rest);
      CleanStays(whole);
    }
  }

  lemma RootJoins(rest: string)
    requires AllOrdinary(RawSplit(rest))
    ensures Clean([SLASH] + ([SLASH] + rest)) == [SLASH] + rest
  {
    var s := [SLASH] + ([SLASH] + rest);
    RootedSplit(s);
    assert s[1..] == [SLASH] + rest && ([SLASH] + rest)[1..] == rest;
    var parts := RawSplit(s)[1..];
    assert parts == [[]] + RawSplit(rest);
    assert parts[1..] == RawSplit(rest);
    CleanOrdinary([], RawSplit(rest));
    assert [] + RawSplit(rest) == RawSplit(rest);
    RawJoin(rest);
  }

  // ---------------------------------------------------------------- reading one back

  /** A name that leaves no escape pending splits where it is joined. */
  lemma {:induction false} SplitJoins(a: string, b: string, escaped: bool)
    requires !Pending(a, escaped)
    ensures SplitFrom(a + ([SLASH] + b), SLASH, escaped) == SplitFrom(a, SLASH, escaped) + Split(b, SLASH)
    decreases |a|
  {
    var s := a + ([SLASH] + b);
    if a == [] {
      assert s[1..] == b;
    } else {
      var next := a[0] == BACKSLASH && !escaped;
      assert s[1..] == a[1..] + ([SLASH] + b);
      if a[0] == SLASH && !escaped {
        SplitJoins(a[1..], b, false);
        MoreParts([], Split(a[1..], SLASH), Split(b, SLASH));
      } else {
        SplitJoins(a[1..], b, next);
        MoreParts([a[0]], SplitFrom(a[1..], SLASH, next), Split(b, SLASH));
      }
    }
  }

  lemma MoreParts(part: string, parts: seq<string>, more: seq<string>)
    requires parts != []
    ensures Before(part, parts) + more == Before(part, parts + more)
    ensures ([[]] + parts) + more == [[]] + (parts + more)
  {
    assert (parts + more)[1..] == parts[1..] + more;
  }

  lemma PlainText(s: string)
    requires forall i | 0 <= i < |s| :: s[i] != SLASH && s[i] != SEMI && s[i] != BACKSLASH
    ensures Closed(s, SLASH, false) && Closed(s, SEMI, false) && !Pending(s, false) && Unescaped(s) == s
    decreases |s|
  {
    if s != [] {
      PlainText(s[1..]);
      assert [s[0]] + s[1..] == s;
    }
  }

  /** The session's part of the component, before the deadline's. */
  function SessionText(session: string): string { "sess=" + Escape(session) }

  lemma SessionTextReads(session: string)
    ensures Closed(SessionText(session), SLASH, false) && Closed(SessionText(session), SEMI, false)
    ensures !Pending(SessionText(session), false) && Unescaped(SessionText(session)) == "sess=" + session
  {
    PlainText("sess=");
    EscapedText(session);
    PendingAppend("sess=", Escape(session), false);
    ClosedAppend("sess=", Escape(session), SLASH, false);
    ClosedAppend("sess=", Escape(session), SEMI, false);
    UnescapeAppend("sess=", Escape(session), false);
  }

  lemma DeadlineText(at: nat)
    ensures forall i | 0 <= i < |"gc=" + Digits(at)| ::
              ("gc=" + Digits(at))[i] != SLASH && ("gc=" + Digits(at))[i] != SEMI &&
                ("gc=" + Digits(at))[i] != BACKSLASH
  {
  }

  lemma {:induction false} CutKey(key: string, value: string)
    requires forall i | 0 <= i < |key| :: key[i] != '='
    ensures Cut(key + (['='] + value)) == Some(Param(key, value))
    decreases |key|
  {
    var s := key + (['='] + value);
    if key == [] {
      assert s[1..] == value;
    } else {
      CutKey(key[1..], value);
      assert s[1..] == key[1..] + (['='] + value) && [key[0]] + key[1..] == key;
    }
  }

  /** The component splits into its two parameters. */
  lemma SessionParams(session: string, at: nat)
    ensures ParamsIn(SessionPart(session, at)) == [Param("sess", session), Param("gc", Digits(at))]
    ensures Closed(SessionPart(session, at), SLASH, false) && !Pending(SessionPart(session, at), false)
  {
    var left, right := SessionText(session), "gc=" + Digits(at);
    SessionTextReads(session);
    DeadlineText(at);
    PlainText(right);
    assert SessionPart(session, at) == left + ([SEMI] + right);
    SplitEnds(left, right, SEMI);
    SplitWhole(right, SEMI);
    PartIsOpen(left, right);
    TwoParams(left, right, session, Digits(at));
  }

  lemma PartIsOpen(left: string, right: string)
    requires Closed(left, SLASH, false) && !Pending(left, false) && Closed(right, SLASH, false) &&
             !Pending(right, false)
    ensures Closed(left + ([SEMI] + right), SLASH, false) && !Pending(left + ([SEMI] + right), false)
  {
    var more := [SEMI] + right;
    assert more[1..] == right;
    ClosedAppend(left, more, SLASH, false);
    PendingAppend(left, more, false);
  }

  lemma TwoParams(left: string, right: string, session: string, digits: string)
    requires Unescaped(left) == "sess=" + session && Unescaped(right) == right == "gc=" + digits
    ensures ParamsAmong([left] + [right]) == [Param("sess", session), Param("gc", digits)]
  {
    assert "sess=" + session == "sess" + (['='] + session) && "gc=" + digits == "gc" + (['='] + digits);
    CutKey("sess", session);
    CutKey("gc", digits);
    assert ([left] + [right])[1..] == [right] && [right][1..] == [];
    assert ParamsAmong([right]) == [Param("gc", digits)] + ParamsAmong([]);
    assert ParamsAmong([left] + [right]) == [Param("sess", session)] + ParamsAmong([right]);
  }

  lemma WordParams(direction: string)
    requires Word(direction)
    ensures ParamsIn(direction) == [] && Split(direction, SLASH) == [direction]
  {
    PlainText(direction);
    SplitWhole(direction, SEMI);
    SplitWhole(direction, SLASH);
    NoCut(direction);
    assert [direction][1..] == [];
    assert ParamsAmong([direction]) == [] + ParamsAmong([]);
  }

  lemma {:induction false} NoCut(s: string)
    requires forall i | 0 <= i < |s| :: s[i] != '='
    ensures Cut(s) == None
    decreases |s|
  {
    if s != [] {
      NoCut(s[1..]);
    }
  }

  /** The components of a session queue's name, after its first slash. */
  lemma SessionSplits(prefix: string, session: string, at: nat, direction: string)
    requires CleanPath(prefix) && !Pending(prefix, false) && Word(direction)
    ensures var name := SessionQueue(prefix, session, at, direction);
            && Split(name, SLASH)[0] == Split(Stem(prefix), SLASH)[0]
            && Split(name, SLASH)[1..] == Split(Stem(prefix), SLASH)[1..] + [SessionPart(session, at), direction]
  {
    var mid := SessionPart(session, at);
    SessionQueueIs(prefix, session, at, direction);
    SessionParams(session, at);
    WordParams(direction);
    SplitEnds(mid, direction, SLASH);
    assert [mid] + [direction] == [mid, direction];
    SplitJoins(Stem(prefix), mid + ([SLASH] + direction), false);
  }

  lemma TwoComponents(a: string, b: string)
    requires ParamsIn(b) == []
    ensures ParamsOf([a, b]) == ParamsIn(a)
  {
    assert [a, b][1..] == [b] && [b][1..] == [];
    assert ParamsOf([b]) == [] + ParamsOf([]);
    assert ParamsIn(a) + [] == ParamsIn(a);
  }

  lemma DeadlineValues(session: string, digits: string)
    ensures ValuesOf([Param("sess", session), Param("gc", digits)], "gc") == [digits]
  {
    var params := [Param("sess", session), Param("gc", digits)];
    assert params[1..] == [Param("gc", digits)] && params[1..][1..] == [];
    assert ValuesOf(params[1..], "gc") == [digits] + ValuesOf([], "gc");
    assert ValuesOf(params, "gc") == [] + ValuesOf(params[1..], "gc");
  }

  /** The session's deadline is the last value of gc. */
  lemma LastDeadline(prefix: string, session: string, at: nat, direction: string)
    requires CleanPath(prefix) && !Pending(prefix, false) && Word(direction)
    ensures ValuesOf(Params(SessionQueue(prefix, session, at, direction)), "gc") ==
            ValuesOf(ParamsOf(Split(Stem(prefix), SLASH)[1..]), "gc") + [Digits(at)]
  {
    var before, mid := Split(Stem(prefix), SLASH)[1..], SessionPart(session, at);
    SessionSplits(prefix, session, at, direction);
    SessionParams(session, at);
    WordParams(direction);
    TwoComponents(mid, direction);
    ParamsAppend(before, [mid, direction]);
    ValuesAppend(ParamsOf(before), ParamsIn(mid), "gc");
    DeadlineValues(session, Digits(at));
  }

  /** For every session text, clean prefix and deadline: a session queue is collected
      from its deadline on. */
  lemma SessionActivates(prefix: string, session: string, at: nat, direction: string, stamp: string -> Activation)
    requires CleanPath(prefix) && !Pending(prefix, false) && Word(direction) && at < TWO_63
    ensures Activates(SessionQueue(prefix, session, at, direction), stamp) == At(at)
  {
    LastDeadline(prefix, session, at, direction);
    DigitsNumber(at);
  }

  /** So names of one lane with different deadlines are different. */
  lemma SessionQueuesDiffer(prefix: string, session: string, a: nat, b: nat, direction: string)
    requires CleanPath(prefix) && !Pending(prefix, false) && Word(direction) && a < TWO_63 && b < TWO_63
    ensures SessionQueue(prefix, session, a, direction) == SessionQueue(prefix, session, b, direction) <==> a == b
  {
    SessionActivates(prefix, session, a, direction, _ => Malformed);
    SessionActivates(prefix, session, b, direction, _ => Malformed);
  }

  /** Folding on the session gives one name for all sessions and deadlines. */
  lemma SessionsFold(prefix: string, s1: string, a1: nat, s2: string, a2: nat, direction: string)
    requires CleanPath(prefix) && !Pending(prefix, false) && Word(direction)
    ensures Fold(SessionQueue(prefix, s1, a1, direction), "sess") ==
            Fold(SessionQueue(prefix, s2, a2, direction), "sess")
  {
    SessionFolds(prefix, s1, a1, direction);
    SessionFolds(prefix, s2, a2, direction);
  }

  lemma SessionFolds(prefix: string, session: string, at: nat, direction: string)
    requires CleanPath(prefix) && !Pending(prefix, false) && Word(direction)
    ensures var stem := Split(Stem(prefix), SLASH);
            Fold(SessionQueue(prefix, session, at, direction), "sess") ==
            Join([stem[0]] + (FoldedAll(stem[1..], "sess") + ["*", direction]), SLASH)
  {
    var stem, mid := Split(Stem(prefix), SLASH), SessionPart(session, at);
    SessionSplits(prefix, session, at, direction);
    SessionParams(session, at);
    WordParams(direction);
    assert FoldedAll(stem[1..] + [mid, direction], "sess") == FoldedAll(stem[1..], "sess") + ["*", direction];
  }
}
