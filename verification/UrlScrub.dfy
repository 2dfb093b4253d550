/** `scrub_url` and `scrub_message`: passwords of connection URLs in error texts
    are masked before the error is logged. */
module UrlScrub {
  import opened Wrappers
  import opened Texts

  const POSTGRES := "postgres://"
  const POSTGRESQL := "postgresql://"
  const MASK := ":***"

  // ---- searching -----------------------------------------------------------

  predicate At(s: string, i: nat, pattern: string) {
    i + |pattern| <= |s| && s[i..i + |pattern|] == pattern
  }

  /** `str::find` of a substring, from position `from` on. */
  function FindFrom(s: string, pattern: string, from: nat): (found: Option<nat>)
    requires from <= |s|
    ensures found.Some? ==> from <= found.value && At(s, found.value, pattern)
    ensures found.Some? ==> forall j :: from <= j < found.value ==> !At(s, j, pattern)
    ensures found.None? ==> forall j :: from <= j ==> !At(s, j, pattern)
    decreases |s| - from
  {
    if At(s, from, pattern) then Some(from)
    else if from == |s| then None
    else FindFrom(s, pattern, from + 1)
  }

  /** `str::find` of a character. */
  function IndexOf(s: string, c: char): (i: Option<nat>)
    ensures i.Some? ==> i.value < |s| && s[i.value] == c && forall k :: 0 <= k < i.value ==> s[k] != c
    ensures i.None? ==> c !in s
  {
    if s == "" then None
    else if s[0] == c then Some(0)
    else
      match IndexOf(s[1..], c)
      case None => None
      case Some(i) => assert s[..i + 1] == [s[0]] + s[1..][..i]; Some(i + 1)
  }

  /** `str::rfind` of a character. */
  function LastIndexOf(s: string, c: char): (i: Option<nat>)
    ensures i.Some? ==> i.value < |s| && s[i.value] == c && forall k :: i.value < k < |s| ==> s[k] != c
    ensures i.None? ==> c !in s
  {
    if s == "" then None
    else if s[|s| - 1] == c then Some(|s| - 1)
    else LastIndexOf(s[..|s| - 1], c)
  }

  /** The Unicode White_Space property, as `char::is_whitespace` tests it. */
  predicate IsWhitespace(c: char) {
    || '\U{9}' <= c <= '\U{D}' || c == ' ' || c == '\U{85}' || c == '\U{A0}' || c == '\U{1680}'
    || '\U{2000}' <= c <= '\U{200A}' || c == '\U{2028}' || c == '\U{2029}' || c == '\U{202F}'
    || c == '\U{205F}' || c == '\U{3000}'
  }

  predicate NoWhitespace(s: string) {
    forall k :: 0 <= k < |s| ==> !IsWhitespace(s[k])
  }

  /** Length of the leading part without whitespace. */
  function WordEnd(s: string): (n: nat)
    ensures n <= |s| && NoWhitespace(s[..n]) && (n < |s| ==> IsWhitespace(s[n]))
  {
    if s == "" || IsWhitespace(s[0]) then 0
    else
      var n := WordEnd(s[1..]);
      assert s[..n + 1] == [s[0]] + s[1..][..n];
      n + 1
  }

  /** Position of the first `?` or `#`, or the length. */
  function QueryStart(s: string): (n: nat)
    ensures n <= |s|
  {
    if s == "" || s[0] == '?' || s[0] == '#' then 0 else QueryStart(s[1..]) + 1
  }

  lemma IndexInConcat(u: string, c: char, p: string)
    requires c !in u
    ensures IndexOf(u + ([c] + p), c) == Some(|u|)
  {
    var s := u + ([c] + p);
    assert s[|u|] == c;
    assert forall k :: 0 <= k < |u| ==> s[k] == u[k];
  }

  lemma OnlyLast(s: string, c: char, i: nat)
    requires i < |s| && s[i] == c && forall k: nat :: i < k < |s| ==> s[k] != c
    ensures LastIndexOf(s, c) == Some(i)
  {
  }

  lemma InTail(u: string, t: string, k: nat)
    requires |u| <= k < |u| + |t|
    ensures (u + t)[k] == t[k - |u|] && t[k - |u|] in t
  {
  }

  lemma LastIndexInConcat(u: string, c: char, h: string)
    requires c !in h
    ensures LastIndexOf(u + ([c] + h), c) == Some(|u|)
  {
    var t := [c] + h;
    var s := u + t;
    InTail(u, t, |u|);
    forall k: nat | |u| < k < |s| ensures s[k] != c {
      InTail(u, t, k);
      InTail([c], h, k - |u|);
    }
    OnlyLast(s, c, |u|);
  }

  /** No earlier occurrence can straddle the border to `tail`, as a pattern holds
      its first character once only. */
  lemma AtInConcat(before: string, tail: string, pattern: string, j: nat)
    requires j < |before| && pattern != "" && tail != "" && tail[0] == pattern[0]
    requires forall k :: 0 < k < |pattern| ==> pattern[k] != pattern[0]
    ensures At(before + tail, j, pattern) == At(before, j, pattern)
  {
    var s := before + tail;
    var e := j + |pattern|;
    if e <= |before| {
      assert s[j..e] == before[j..e];
    } else if e <= |s| {
      assert s[j..e][|before| - j] == tail[0] != pattern[|before| - j];
    }
  }

  // ---- scrub_url -----------------------------------------------------------

  /** The part behind "://" with its password masked, if it has one. */
  function MaskPassword(rest: string): Option<string> {
    match LastIndexOf(rest, '@')
    case None => None
    case Some(at) =>
      var userinfo, afterAt := rest[..at], rest[at..];
      var hostEnd := QueryStart(afterAt);
      var hostOnwards, trailing := afterAt[..hostEnd], afterAt[hostEnd..];
      match IndexOf(userinfo, ':')
      case None => None
      case Some(colon) =>
        if colon + 1 == |userinfo| then None
        else Some(userinfo[..colon] + MASK + hostOnwards + trailing)
  }

  function ScrubUrl(s: string): string {
    match FindFrom(s, "://", 0)
    case None => s
    case Some(i) =>
      match MaskPassword(s[i + 3..])
      case None => s
      case Some(masked) => s[..i] + ("://" + masked)
  }

  /** What stands before the first "://". */
  predicate IsScheme(scheme: string) {
    FindFrom(scheme, "://", 0).None?
  }

  function Userinfo(user: string, password: string): string {
    user + (":" + password)
  }

  function Authority(user: string, password: string, host: string): string {
    Userinfo(user, password) + ("@" + host)
  }

  function Url(scheme: string, rest: string): string {
    scheme + ("://" + rest)
  }

  lemma SchemeEnds(scheme: string, rest: string)
    requires IsScheme(scheme)
    ensures FindFrom(Url(scheme, rest), "://", 0) == Some(|scheme|)
    ensures Url(scheme, rest)[..|scheme|] == scheme && Url(scheme, rest)[|scheme| + 3..] == rest
  {
    var tail := "://" + rest;
    var s := scheme + tail;
    assert s[|scheme|..|scheme| + 3] == "://";
    assert At(s, |scheme|, "://");
    forall j: nat | j < |scheme| ensures !At(s, j, "://") {
      AtInConcat(scheme, tail, "://", j);
    }
  }

  lemma Pieces(s: string, i: nat, n: nat)
    requires i + n <= |s|
    ensures s == s[..i] + (s[i..i + n] + s[i + n..])
  {
    assert s[i..] == s[i..i + n] + s[i + n..];
  }

  lemma NotInPrefix(s: string, i: nat, pattern: string)
    requires i <= |s| && forall j :: 0 <= j < i ==> !At(s, j, pattern)
    requires pattern != ""
    ensures FindFrom(s[..i], pattern, 0).None?
  {
    forall j: nat | j + |pattern| <= i ensures !At(s[..i], j, pattern) {
      assert s[..i][j..j + |pattern|] == s[j..j + |pattern|];
      assert !At(s, j, pattern);
    }
  }

  lemma SchemeOfUrl(s: string)
    requires FindFrom(s, "://", 0).Some?
    ensures var i := FindFrom(s, "://", 0).value;
            i + 3 <= |s| && IsScheme(s[..i]) && s == Url(s[..i], s[i + 3..])
  {
    var i := FindFrom(s, "://", 0).value;
    Pieces(s, i, 3);
    NotInPrefix(s, i, "://");
  }

  lemma HostIsKept(head: string, afterAt: string)
    ensures head + afterAt[..QueryStart(afterAt)] + afterAt[QueryStart(afterAt)..] == head + afterAt
  {
    var n := QueryStart(afterAt);
    Assoc(head, afterAt[..n], afterAt[n..]);
    assert afterAt[..n] + afterAt[n..] == afterAt;
  }

  lemma PasswordIsMasked(user: string, password: string, host: string)
    requires ':' !in user && password != "" && '@' !in host
    ensures MaskPassword(Authority(user, password, host)) == Some(user + MASK + ("@" + host))
  {
    var userinfo := Userinfo(user, password);
    LastIndexInConcat(userinfo, '@', host);
    Split(userinfo, "@" + host);
    IndexInConcat(user, ':', password);
    Split(user, ":" + password);
    HostIsKept(user + MASK, "@" + host);
  }

  lemma MaskIsAPassword(user: string, host: string)
    ensures user + MASK + ("@" + host) == Authority(user, "***", host)
  {
    assert MASK == ":" + "***";
  }

  lemma MaskedForm(rest: string) returns (user: string, password: string, host: string)
    requires MaskPassword(rest).Some?
    ensures ':' !in user && password != "" && '@' !in host
    ensures rest == Authority(user, password, host)
  {
    var at := LastIndexOf(rest, '@').value;
    var userinfo := rest[..at];
    host := rest[at + 1..];
    assert rest == userinfo + ("@" + host);
    var colon := IndexOf(userinfo, ':').value;
    user, password := userinfo[..colon], userinfo[colon + 1..];
    assert userinfo == user + (":" + password);
  }

  /** A password is masked whatever it contains; all else is kept. */
  lemma ScrubUrlMasks(scheme: string, user: string, password: string, host: string)
    requires IsScheme(scheme) && ':' !in user && password != "" && '@' !in host
    ensures ScrubUrl(Url(scheme, Authority(user, password, host))) == Url(scheme, Authority(user, "***", host))
  {
    PasswordIsMasked(user, password, host);
    MaskIsAPassword(user, host);
    ScrubUrlAt(scheme, Authority(user, password, host));
  }

  lemma ScrubUrlAt(scheme: string, rest: string)
    requires IsScheme(scheme) && MaskPassword(rest).Some?
    ensures ScrubUrl(Url(scheme, rest)) == Url(scheme, MaskPassword(rest).value)
  {
    SchemeEnds(scheme, rest);
    ScrubUrlParts(Url(scheme, rest), |scheme|, rest);
  }

  lemma ScrubUrlParts(s: string, i: nat, rest: string)
    requires i + 3 <= |s| && FindFrom(s, "://", 0) == Some(i) && s[i + 3..] == rest && MaskPassword(rest).Some?
    ensures ScrubUrl(s) == s[..i] + ("://" + MaskPassword(rest).value)
  {
  }

  /** Only a URL with a password changes: any other text stays as it is. */
  lemma ScrubUrlForm(s: string) returns (scheme: string, user: string, password: string, host: string)
    requires ScrubUrl(s) != s
    ensures IsScheme(scheme) && ':' !in user && password != "" && '@' !in host
    ensures s == Url(scheme, Authority(user, password, host))
    ensures FindFrom(s, "://", 0) == Some(|scheme|)
  {
    SchemeOfUrl(s);
    var i := FindFrom(s, "://", 0).value;
    scheme := s[..i];
    user, password, host := MaskedForm(s[i + 3..]);
  }

  lemma ScrubUrlIdempotent(s: string)
    ensures ScrubUrl(ScrubUrl(s)) == ScrubUrl(s)
  {
    if ScrubUrl(s) != s {
      var scheme, user, password, host := ScrubUrlForm(s);
      ScrubUrlMasks(scheme, user, password, host);
      ScrubUrlMasks(scheme, user, "***", host);
    }
  }

  // ---- scrub_message -------------------------------------------------------

  predicate StartsUrl(s: string) {
    At(s, 0, POSTGRES) || At(s, 0, POSTGRESQL)
  }

  /** `find_pg_scheme`: the earliest start of either scheme. */
  function FindScheme(s: string): (found: Option<nat>)
    ensures found.Some? ==> (At(s, found.value, POSTGRES) || At(s, found.value, POSTGRESQL))
    ensures found.Some? ==> forall j: nat :: j < found.value ==> !At(s, j, POSTGRES) && !At(s, j, POSTGRESQL)
    ensures found.None? ==> forall j: nat :: !At(s, j, POSTGRES) && !At(s, j, POSTGRESQL)
  {
    match (FindFrom(s, POSTGRES, 0), FindFrom(s, POSTGRESQL, 0))
    case (Some(a), Some(b)) => Some(if a <= b then a else b)
    case (Some(a), None) => Some(a)
    case (None, b) => b
  }

  lemma SegmentIsNotEmpty(s: string, i: nat)
    requires At(s, i, POSTGRES) || At(s, i, POSTGRESQL)
    ensures i < |s| && StartsUrl(s[i..]) && s[i] == 'p' && WordEnd(s[i..]) > 0
  {
    var pattern := if At(s, i, POSTGRES) then POSTGRES else POSTGRESQL;
    assert s[i..][..|pattern|] == s[i..i + |pattern|];
    assert s[i..i + |pattern|][0] == 'p';
  }

  function ScrubMessage(msg: string): string
    decreases |msg|
  {
    match FindScheme(msg)
    case None => msg
    case Some(i) =>
      SegmentIsNotEmpty(msg, i);
      var candidate := msg[i..];
      var end := WordEnd(candidate);
      msg[..i] + (ScrubUrl(candidate[..end]) + ScrubMessage(candidate[end..]))
  }

  /** The loop of `scrub_message` over the unread rest of the text. */
  method ScrubMessageLoop(msg: string) returns (out: string)
    ensures out == ScrubMessage(msg)
  {
    out := "";
    var rest := msg;
    var next := FindScheme(rest);
    while next.Some?
      invariant next == FindScheme(rest)
      invariant out + ScrubMessage(rest) == ScrubMessage(msg)
      decreases |rest|
    {
      var i := next.value;
      SegmentIsNotEmpty(rest, i);
      var candidate := rest[i..];
      var end := WordEnd(candidate);
      var before, scrubbed, after := rest[..i], ScrubUrl(candidate[..end]), candidate[end..];
      Assoc(out, before, scrubbed + ScrubMessage(after));
      Assoc(out + before, scrubbed, ScrubMessage(after));
      out := out + before;
      out := out + scrubbed;
      rest := after;
      next := FindScheme(rest);
    }
    out := out + rest;
  }

  // ---- a segment of a message ----------------------------------------------

  predicate IsPgScheme(scheme: string) {
    scheme == "postgres" || scheme == "postgresql"
  }

  lemma PgSchemes(scheme: string, rest: string)
    requires IsPgScheme(scheme)
    ensures IsScheme(scheme) && NoWhitespace(scheme) && StartsUrl(Url(scheme, rest))
  {
    forall j: nat | j + 3 <= |scheme| ensures !At(scheme, j, "://") {
      assert scheme[j..j + 3][0] == scheme[j] != ':';
    }
    var s := Url(scheme, rest);
    assert s[0..|scheme| + 3] == scheme + "://";
    assert "postgres" + "://" == POSTGRES && "postgresql" + "://" == POSTGRESQL;
  }

  lemma SegmentScheme(s: string) returns (scheme: string)
    requires StartsUrl(s)
    ensures IsPgScheme(scheme) && FindFrom(s, "://", 0) == Some(|scheme|) && s[..|scheme|] == scheme
  {
    scheme := if At(s, 0, POSTGRES) then "postgres" else "postgresql";
    var rest := s[|scheme| + 3..];
    assert "postgres" + "://" == POSTGRES && "postgresql" + "://" == POSTGRESQL;
    assert s[0..|scheme| + 3] == scheme + "://";
    assert s == (scheme + "://") + rest;
    Assoc(scheme, "://", rest);
    PgSchemes(scheme, rest);
    SchemeEnds(scheme, rest);
  }

  lemma WordsJoin(a: string, b: string)
    ensures NoWhitespace(a + b) == (NoWhitespace(a) && NoWhitespace(b))
  {
    var s := a + b;
    assert forall k :: 0 <= k < |a| ==> a[k] == s[k];
    assert forall k :: 0 <= k < |b| ==> b[k] == s[|a| + k];
  }

  lemma UrlIsAWord(scheme: string, user: string, password: string, host: string)
    ensures NoWhitespace(Url(scheme, Authority(user, password, host)))
         == (NoWhitespace(scheme) && NoWhitespace(user) && NoWhitespace(password) && NoWhitespace(host))
  {
    WordsJoin(scheme, "://" + Authority(user, password, host));
    WordsJoin("://", Authority(user, password, host));
    WordsJoin(Userinfo(user, password), "@" + host);
    WordsJoin("@", host);
    WordsJoin(user, ":" + password);
    WordsJoin(":", password);
  }

  lemma SegmentForm(s: string) returns (scheme: string, user: string, password: string, host: string)
    requires StartsUrl(s) && ScrubUrl(s) != s
    ensures IsPgScheme(scheme) && ':' !in user && password != "" && '@' !in host
    ensures s == Url(scheme, Authority(user, password, host))
  {
    var pg := SegmentScheme(s);
    scheme, user, password, host := ScrubUrlForm(s);
    Split(scheme, "://" + Authority(user, password, host));
  }

  lemma MaskedSegment(scheme: string, user: string, password: string, host: string)
    requires IsPgScheme(scheme) && NoWhitespace(Url(scheme, Authority(user, password, host)))
    ensures var s := Url(scheme, Authority(user, "***", host)); StartsUrl(s) && NoWhitespace(s)
  {
    PgSchemes(scheme, Authority(user, "***", host));
    UrlIsAWord(scheme, user, password, host);
    UrlIsAWord(scheme, user, "***", host);
  }

  /** A scrubbed URL segment is a URL segment. */
  lemma ScrubbedSegment(s: string)
    requires StartsUrl(s) && NoWhitespace(s)
    ensures StartsUrl(ScrubUrl(s)) && NoWhitespace(ScrubUrl(s))
  {
    if ScrubUrl(s) != s {
      var scheme, user, password, host := SegmentForm(s);
      PgSchemes(scheme, "");
      ScrubUrlMasks(scheme, user, password, host);
      MaskedSegment(scheme, user, password, host);
    }
  }

  // ---- messages ------------------------------------------------------------

  /** The parts a message is cut into at its first URL. */
  predicate Cut(before: string, segment: string, rest: string) {
    && FindScheme(before).None?
    && StartsUrl(segment) && NoWhitespace(segment)
    && (rest == "" || IsWhitespace(rest[0]))
  }

  lemma StartsAlike(segment: string, rest: string)
    requires StartsUrl(segment)
    ensures StartsUrl(segment + rest) && segment[0] == 'p'
  {
    var pattern := if At(segment, 0, POSTGRES) then POSTGRES else POSTGRESQL;
    assert (segment + rest)[0..|pattern|] == segment[0..|pattern|] == pattern;
    assert segment[0..|pattern|][0] == 'p';
  }

  lemma FirstScheme(before: string, tail: string)
    requires FindScheme(before).None? && StartsUrl(tail)
    ensures FindScheme(before + tail) == Some(|before|)
  {
    StartsAlike(tail, "");
    var msg := before + tail;
    forall j: nat | j < |before| ensures !At(msg, j, POSTGRES) && !At(msg, j, POSTGRESQL) {
      AtInConcat(before, tail, POSTGRES, j);
      AtInConcat(before, tail, POSTGRESQL, j);
    }
    var pattern := if At(tail, 0, POSTGRES) then POSTGRES else POSTGRESQL;
    assert msg[|before|..|before| + |pattern|] == tail[0..|pattern|];
    assert At(msg, |before|, pattern);
  }

  lemma NoSchemeBefore(msg: string, i: nat)
    requires FindScheme(msg) == Some(i)
    ensures i <= |msg| && FindScheme(msg[..i]).None?
  {
    NotInPrefix(msg, i, POSTGRES);
    NotInPrefix(msg, i, POSTGRESQL);
  }

  lemma WordEndIs(segment: string, rest: string)
    requires NoWhitespace(segment) && (rest == "" || IsWhitespace(rest[0]))
    ensures WordEnd(segment + rest) == |segment|
  {
    var s := segment + rest;
    var n := WordEnd(s);
    assert forall k :: 0 <= k < |segment| ==> s[k] == segment[k];
    assert rest != "" ==> s[|segment|] == rest[0];
    assert forall k :: 0 <= k < n ==> s[..n][k] == s[k];
  }

  lemma WordHoldsScheme(candidate: string)
    requires StartsUrl(candidate)
    ensures StartsUrl(candidate[..WordEnd(candidate)])
  {
    if At(candidate, 0, POSTGRES) {
      WordHoldsPrefix(candidate, POSTGRES);
    } else {
      WordHoldsPrefix(candidate, POSTGRESQL);
    }
  }

  lemma WordHoldsPrefix(candidate: string, pattern: string)
    requires At(candidate, 0, pattern) && NoWhitespace(pattern)
    ensures At(candidate[..WordEnd(candidate)], 0, pattern)
  {
    var end := WordEnd(candidate);
    assert forall k :: 0 <= k < |pattern| ==> candidate[k] == candidate[0..|pattern|][k] == pattern[k];
    assert end >= |pattern|;
    assert candidate[..end][0..|pattern|] == candidate[0..|pattern|];
  }

  lemma CutAt(msg: string) returns (before: string, segment: string, rest: string)
    requires FindScheme(msg).Some?
    ensures Cut(before, segment, rest) && msg == before + (segment + rest) && |rest| < |msg|
  {
    var i := FindScheme(msg).value;
    SegmentIsNotEmpty(msg, i);
    NoSchemeBefore(msg, i);
    var candidate := msg[i..];
    var end := WordEnd(candidate);
    WordHoldsScheme(candidate);
    before, segment, rest := msg[..i], candidate[..end], candidate[end..];
    Halves(candidate, end);
    Halves(msg, i);
  }

  lemma CutIsFound(before: string, segment: string, rest: string)
    requires Cut(before, segment, rest)
    ensures var msg := before + (segment + rest);
            && FindScheme(msg) == Some(|before|) && msg[..|before|] == before && msg[|before|..] == segment + rest
            && WordEnd(segment + rest) == |segment|
            && (segment + rest)[..|segment|] == segment && (segment + rest)[|segment|..] == rest
  {
    StartsAlike(segment, rest);
    FirstScheme(before, segment + rest);
    Split(before, segment + rest);
    WordEndIs(segment, rest);
    Split(segment, rest);
  }

  /** A cut message is scrubbed part by part. */
  lemma ScrubCut(before: string, segment: string, rest: string)
    requires Cut(before, segment, rest)
    ensures ScrubMessage(before + (segment + rest)) == before + (ScrubUrl(segment) + ScrubMessage(rest))
  {
    CutIsFound(before, segment, rest);
  }

  lemma ScrubKeepsStart(rest: string)
    requires rest != "" && IsWhitespace(rest[0])
    ensures ScrubMessage(rest) != "" && ScrubMessage(rest)[0] == rest[0]
  {
    if FindScheme(rest).Some? {
      var i := FindScheme(rest).value;
      SegmentIsNotEmpty(rest, i);
      assert i > 0;
      assert rest[..i][0] == rest[0];
    }
  }

  /** Scrubbing a cut message leaves a message cut at the same place. */
  lemma ScrubbedCut(before: string, segment: string, rest: string)
    requires Cut(before, segment, rest)
    ensures Cut(before, ScrubUrl(segment), ScrubMessage(rest))
  {
    ScrubbedSegment(segment);
    if rest == "" {
      assert ScrubMessage(rest) == "";
    } else {
      ScrubKeepsStart(rest);
    }
  }

  /** Scrubbing twice is scrubbing once, on every input. */
  lemma {:induction false} ScrubMessageIdempotent(msg: string)
    ensures ScrubMessage(ScrubMessage(msg)) == ScrubMessage(msg)
    decreases |msg|
  {
    if FindScheme(msg).Some? {
      var before, segment, rest := CutAt(msg);
      ScrubMessageIdempotent(rest);
      ScrubUrlIdempotent(segment);
      ScrubCut(before, segment, rest);
      ScrubbedCut(before, segment, rest);
      ScrubCut(before, ScrubUrl(segment), ScrubMessage(rest));
    }
  }

  /** The text outside the URL segments, in order. */
  function Outside(msg: string): string
    decreases |msg|
  {
    match FindScheme(msg)
    case None => msg
    case Some(i) =>
      SegmentIsNotEmpty(msg, i);
      msg[..i] + Outside(msg[i..][WordEnd(msg[i..])..])
  }

  lemma OutsideCut(before: string, segment: string, rest: string)
    requires Cut(before, segment, rest)
    ensures Outside(before + (segment + rest)) == before + Outside(rest)
  {
    CutIsFound(before, segment, rest);
  }

  /** Nothing outside the URL segments is lost, added or moved; a text without
      a Postgres scheme is kept as it is. */
  lemma {:induction false} OutsideIsKept(msg: string)
    ensures Outside(ScrubMessage(msg)) == Outside(msg)
    ensures FindScheme(msg).None? ==> ScrubMessage(msg) == msg
    decreases |msg|
  {
    if FindScheme(msg).Some? {
      var before, segment, rest := CutAt(msg);
      OutsideIsKept(rest);
      ScrubCut(before, segment, rest);
      ScrubbedCut(before, segment, rest);
      OutsideCut(before, segment, rest);
      OutsideCut(before, ScrubUrl(segment), ScrubMessage(rest));
    }
  }

  /** The scrubbed message does not depend on the password of a URL in it, be
      it full of '@', '/', '?', '#' or ':', as long as it has no whitespace. */
  lemma PasswordIsHidden(before: string, scheme: string, user: string, password: string, host: string, rest: string)
    requires IsPgScheme(scheme)
    requires ':' !in user && password != "" && '@' !in host
    requires Cut(before, Url(scheme, Authority(user, password, host)), rest)
    ensures ScrubMessage(before + (Url(scheme, Authority(user, password, host)) + rest))
         == before + (Url(scheme, Authority(user, "***", host)) + ScrubMessage(rest))
  {
    PgSchemes(scheme, "");
    ScrubUrlMasks(scheme, user, password, host);
    ScrubCut(before, Url(scheme, Authority(user, password, host)), rest);
  }
}
