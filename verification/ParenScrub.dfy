/** `scrub_parenthesized`: value lists in the detail line of a database error
    are replaced before the error is logged. */
module ParenScrub {
  import opened Wrappers
  import opened Texts
  import opened UrlScrub

  const SCRUBBED := "<scrubbed>"

  function Scrub(s: string): string
    decreases |s|
  {
    match IndexOf(s, '(')
    case None => s
    case Some(open) =>
      var inner := s[open + 1..];
      match IndexOf(inner, ')')
      case None => s[..open + 1] + SCRUBBED
      case Some(close) => s[..open + 1] + (SCRUBBED + Scrub(inner[close..]))
  }

  /** The loop of `scrub_parenthesized` over the unread rest of the text. */
  method ScrubParenthesized(s: string) returns (out: string)
    ensures out == Scrub(s)
  {
    out := "";
    var rest := s;
    var open := IndexOf(rest, '(');
    while open.Some?
      invariant open == IndexOf(rest, '(')
      invariant out + Scrub(rest) == Scrub(s)
      decreases |rest|
    {
      var before, inner := rest[..open.value + 1], rest[open.value + 1..];
      var close := IndexOf(inner, ')');
      if close.None? {
        ScrubEnds(rest, out);
        return out + before + SCRUBBED;
      }
      var after := inner[close.value..];
      ScrubStep(rest, out);
      out := out + before;
      out := out + SCRUBBED;
      rest := after;
      open := IndexOf(rest, '(');
    }
    ScrubPlain(rest);
    out := out + rest;
  }

  lemma ScrubPlain(s: string)
    requires IndexOf(s, '(').None?
    ensures Scrub(s) == s
  {
  }

  lemma ScrubEnds(rest: string, out: string)
    requires var open := IndexOf(rest, '('); open.Some? && IndexOf(rest[open.value + 1..], ')').None?
    ensures out + Scrub(rest) == out + rest[..IndexOf(rest, '(').value + 1] + SCRUBBED
  {
    Assoc(out, rest[..IndexOf(rest, '(').value + 1], SCRUBBED);
  }

  lemma ScrubStep(rest: string, out: string)
    requires var open := IndexOf(rest, '('); open.Some? && IndexOf(rest[open.value + 1..], ')').Some?
    ensures var open := IndexOf(rest, '(').value;
            var inner := rest[open + 1..];
            out + Scrub(rest) == out + rest[..open + 1] + SCRUBBED + Scrub(inner[IndexOf(inner, ')').value..])
  {
    var open := IndexOf(rest, '(').value;
    var inner := rest[open + 1..];
    AssocTwice(out, rest[..open + 1], SCRUBBED, Scrub(inner[IndexOf(inner, ')').value..]));
  }

  lemma AssocTwice(a: string, b: string, c: string, d: string)
    ensures a + b + c + d == a + (b + (c + d))
  {
    Assoc(a, b, c + d);
    Assoc(a + b, c, d);
  }

  // ---- what is left in parentheses -----------------------------------------

  /** The marker stands at `i`, closed by ')' or by the end of the text. */
  predicate Filled(s: string, i: nat) {
    At(s, i, SCRUBBED) && (i + |SCRUBBED| == |s| || s[i + |SCRUBBED|] == ')')
  }

  /** Nothing but the marker follows any '('. */
  predicate Guarded(s: string) {
    forall k :: 0 <= k < |s| && s[k] == '(' ==> Filled(s, k + 1)
  }

  lemma FilledInConcat(a: string, t: string, i: nat)
    ensures Filled(a + t, |a| + i) == Filled(t, i)
  {
    var s := a + t;
    if i + |SCRUBBED| <= |t| {
      assert s[|a| + i..|a| + i + |SCRUBBED|] == t[i..i + |SCRUBBED|];
    }
  }

  lemma GuardedPlain(a: string, t: string)
    requires '(' !in a
    ensures Guarded(a + t) == Guarded(t)
  {
    var s := a + t;
    assert forall k :: 0 <= k < |a| ==> s[k] == a[k];
    forall k: nat | k < |t| ensures s[|a| + k] == t[k] && Filled(s, |a| + k + 1) == Filled(t, k + 1) {
      FilledInConcat(a, t, k + 1);
    }
    if Guarded(s) {
      forall k | 0 <= k < |t| && t[k] == '(' ensures Filled(t, k + 1) {
        assert s[|a| + k] == '(';
      }
    }
    if Guarded(t) {
      forall k | 0 <= k < |s| && s[k] == '(' ensures Filled(s, k + 1) {
        assert k >= |a|;
        assert t[k - |a|] == '(';
      }
    }
  }

  lemma GuardedOpen(t: string)
    ensures Guarded("(" + t) == (Filled(t, 0) && Guarded(t))
  {
    var s := "(" + t;
    forall k: nat | k <= |t| ensures Filled(s, k + 1) == Filled(t, k) {
      FilledInConcat("(", t, k);
    }
    assert s[0] == '(';
    assert forall k :: 0 <= k < |t| ==> s[k + 1] == t[k];
    if Guarded(s) {
      forall k | 0 <= k < |t| && t[k] == '(' ensures Filled(t, k + 1) {
        assert s[k + 1] == '(';
      }
    }
  }

  lemma GuardedMarker(t: string)
    requires t == "" || t[0] == ')'
    ensures Filled(SCRUBBED + t, 0) && Guarded(SCRUBBED + t) == Guarded(t)
  {
    assert (SCRUBBED + t)[0..|SCRUBBED|] == SCRUBBED;
    GuardedPlain(SCRUBBED, t);
  }

  /** Taking off a filled pair of parentheses. */
  lemma GuardedStep(a: string, t: string)
    requires '(' !in a && (t == "" || t[0] == ')')
    ensures Guarded(a + ("(" + (SCRUBBED + t))) == Guarded(t)
  {
    GuardedPlain(a, "(" + (SCRUBBED + t));
    GuardedOpen(SCRUBBED + t);
    GuardedMarker(t);
  }

  lemma ScrubKeepsClose(s: string)
    requires s != "" && s[0] == ')'
    ensures Scrub(s) != "" && Scrub(s)[0] == ')'
  {
  }

  lemma OpenAt(s: string) returns (a: string, inner: string)
    requires IndexOf(s, '(').Some?
    ensures '(' !in a && IndexOf(s, '(') == Some(|a|) && s == a + ("(" + inner)
    ensures s[..|a| + 1] == a + "(" && s[|a| + 1..] == inner
  {
    var open := IndexOf(s, '(').value;
    a, inner := s[..open], s[open + 1..];
    Halves(s, open);
    assert s[open..] == "(" + inner;
  }

  /** Whatever the input, nothing that stood in parentheses is left. */
  lemma {:induction false} ScrubIsGuarded(s: string)
    ensures Guarded(Scrub(s))
    decreases |s|
  {
    if IndexOf(s, '(').Some? {
      var a, inner := OpenAt(s);
      var close := IndexOf(inner, ')');
      if close.None? {
        GuardedStep(a, "");
        assert SCRUBBED + "" == SCRUBBED;
        Assoc(a, "(", SCRUBBED);
      } else {
        var rest := inner[close.value..];
        ScrubIsGuarded(rest);
        ScrubKeepsClose(rest);
        GuardedStep(a, Scrub(rest));
        Assoc(a, "(", SCRUBBED + Scrub(rest));
      }
    }
  }

  lemma ScrubFilled(s: string, a: string, rest: string)
    requires '(' !in a && s == a + ("(" + (SCRUBBED + rest)) && (rest == "" || rest[0] == ')')
    ensures Scrub(s) == a + ("(" + (SCRUBBED + Scrub(rest)))
  {
    var inner := SCRUBBED + rest;
    IndexInConcat(a, '(', inner);
    Assoc(a, "(", inner);
    Split(a + "(", inner);
    CloseBehindMarker(rest);
    Split(SCRUBBED, rest);
    Assoc(a, "(", SCRUBBED + Scrub(rest));
  }

  lemma GuardedInner(a: string, inner: string)
    requires '(' !in a && Guarded(a + ("(" + inner))
    ensures Filled(inner, 0) && Guarded(inner)
  {
    GuardedPlain(a, "(" + inner);
    GuardedOpen(inner);
  }

  lemma GuardedRest(inner: string) returns (rest: string)
    requires Filled(inner, 0) && Guarded(inner)
    ensures inner == SCRUBBED + rest && (rest == "" || rest[0] == ')') && Guarded(rest)
  {
    rest := inner[|SCRUBBED|..];
    Halves(inner, |SCRUBBED|);
    assert inner[0..|SCRUBBED|] == inner[..|SCRUBBED|];
    GuardedPlain(SCRUBBED, rest);
  }

  lemma GuardedForm(s: string) returns (a: string, rest: string)
    requires Guarded(s) && IndexOf(s, '(').Some?
    ensures '(' !in a && (rest == "" || rest[0] == ')') && Guarded(rest)
    ensures s == a + ("(" + (SCRUBBED + rest))
  {
    var inner;
    a, inner := OpenAt(s);
    GuardedInner(a, inner);
    rest := GuardedRest(inner);
  }

  lemma {:induction false} GuardedIsKept(s: string)
    requires Guarded(s)
    ensures Scrub(s) == s
    decreases |s|
  {
    if IndexOf(s, '(').Some? {
      var a, rest := GuardedForm(s);
      GuardedIsKept(rest);
      ScrubFilled(s, a, rest);
    }
  }

  /** A text stays as it is exactly when its parentheses hold markers only. */
  lemma KeptIffGuarded(s: string)
    ensures Scrub(s) == s <==> Guarded(s)
  {
    ScrubIsGuarded(s);
    if Guarded(s) {
      GuardedIsKept(s);
    }
  }

  /** In a filled pair the first ')' stands right behind the marker. */
  lemma CloseBehindMarker(rest: string)
    requires rest == "" || rest[0] == ')'
    ensures IndexOf(SCRUBBED + rest, ')') == if rest == "" then None else Some(|SCRUBBED|)
  {
    NoCloseInMarker();
    CloseBehind(SCRUBBED, rest);
  }

  lemma CloseBehind(marker: string, rest: string)
    requires ')' !in marker && (rest == "" || rest[0] == ')')
    ensures IndexOf(marker + rest, ')') == if rest == "" then None else Some(|marker|)
  {
    if rest == "" {
      assert marker + rest == marker;
    } else {
      Halves(rest, 1);
      assert rest[..1] == [')'];
      IndexInConcat(marker, ')', rest[1..]);
    }
  }

  lemma NoCloseInMarker()
    ensures ')' !in SCRUBBED
  {
  }

  /** Scrubbing twice is scrubbing once. */
  lemma ScrubIsIdempotent(s: string)
    ensures Scrub(Scrub(s)) == Scrub(s)
  {
    ScrubIsGuarded(s);
    KeptIffGuarded(Scrub(s));
  }

  /** The outcome does not depend on what stood in the parentheses. */
  lemma ValuesAreHidden(a: string, x: string, y: string, rest: string)
    requires '(' !in a && ')' !in x && ')' !in y
    ensures Scrub(a + ("(" + (x + (")" + rest)))) == Scrub(a + ("(" + (y + (")" + rest))))
  {
    ScrubPair(a, x, rest);
    ScrubPair(a, y, rest);
  }

  lemma ScrubPair(a: string, x: string, rest: string)
    requires '(' !in a && ')' !in x
    ensures Scrub(a + ("(" + (x + (")" + rest)))) == a + "(" + (SCRUBBED + Scrub(")" + rest))
  {
    var inner := x + (")" + rest);
    var s := a + ("(" + inner);
    IndexInConcat(a, '(', inner);
    Assoc(a, "(", inner);
    Split(a + "(", inner);
    IndexInConcat(x, ')', rest);
    Split(x, ")" + rest);
  }
}
