/** NATS subjects: how they are cut into tokens and matched against subscription patterns. */
module NatsSubjects {
  // ----- Tokens -----

  /** A character before a list of parts: a dot opens a part, another joins the first. */
  function Glue(c: char, parts: seq<string>): (r: seq<string>)
    requires |parts| > 0
    ensures |r| > 0
  {
    if c == '.' then [""] + parts else [[c] + parts[0]] + parts[1..]
  }

  /** The parts between dots, empty ones included, as Python's split gives them. */
  function Split(s: string): (parts: seq<string>)
    ensures |parts| > 0
  {
    if s == "" then [""] else Glue(s[0], Split(s[1..]))
  }

  /** What reading lines up to '.' from a stream gives: a last part that is empty is not read. */
  function Tokens(s: string): seq<string> {
    var parts := Split(s);
    if parts[|parts| - 1] == "" then parts[..|parts| - 1] else parts
  }

  function Tail(parts: seq<string>): string {
    if parts == [] then "" else "." + parts[0] + Tail(parts[1..])
  }

  function Join(parts: seq<string>): string
    requires |parts| > 0
  {
    parts[0] + Tail(parts[1..])
  }

  predicate DotFree(s: string) {
    '.' !in s
  }

  lemma {:induction false} SplitDotFree(s: string)
    requires DotFree(s)
    ensures Split(s) == [s]
  {
    if s == "" {
      assert [s] == [""];
    } else {
      assert s[0] in s && forall c :: c in s[1..] ==> c in s;
      SplitDotFree(s[1..]);
      assert s == [s[0]] + s[1..];
    }
  }

  /** The first dot separates the first part from the rest. */
  lemma {:induction false} SplitFirst(first: string, rest: string)
    requires DotFree(first)
    ensures Split(first + "." + rest) == [first] + Split(rest)
  {
    var s := first + "." + rest;
    if first == "" {
      assert s[1..] == rest && [first] == [""];
    } else {
      assert first[0] in first && forall c :: c in first[1..] ==> c in first;
      SplitFirst(first[1..], rest);
      assert s[1..] == first[1..] + "." + rest;
      assert first == [first[0]] + first[1..];
    }
  }

  lemma TokensFirst(first: string, rest: string)
    requires DotFree(first)
    ensures Tokens(first + "." + rest) == [first] + Tokens(rest)
  {
    SplitFirst(first, rest);
    var parts := Split(rest);
    assert ([first] + parts)[..|parts|] == [first] + parts[..|parts| - 1];
    hide Split;
  }

  lemma TokensLast(token: string)
    requires DotFree(token)
    ensures Tokens(token) == if token == "" then [] else [token]
  {
    SplitDotFree(token);
    hide Split;
  }

  lemma GlueJoin(c: char, parts: seq<string>)
    requires |parts| > 0
    ensures Join(Glue(c, parts)) == [c] + Join(parts)
  {
    var r := Glue(c, parts);
    if c == '.' {
      assert r[1..] == parts;
      assert Tail(parts) == "." + parts[0] + Tail(parts[1..]);
    } else {
      assert r[1..] == parts[1..];
    }
    hide Tail;
  }

  lemma GlueDotFree(c: char, parts: seq<string>)
    requires |parts| > 0 && forall p :: p in parts ==> DotFree(p)
    ensures forall p :: p in Glue(c, parts) ==> DotFree(p)
  {
    var r := Glue(c, parts);
    assert DotFree(parts[0]);
    assert DotFree(r[0]);
    assert forall p :: p in r ==> p == r[0] || p in parts;
  }

  /** Splitting is the inverse of joining: the parts are dot-free and joined again give the string. */
  lemma {:induction false} SplitJoin(s: string)
    ensures Join(Split(s)) == s
    ensures forall p :: p in Split(s) ==> DotFree(p)
  {
    if s != "" {
      SplitJoin(s[1..]);
      GlueJoin(s[0], Split(s[1..]));
      GlueDotFree(s[0], Split(s[1..]));
      hide Glue;
      hide Join;
      assert s == [s[0]] + s[1..];
    }
  }

  lemma {:induction false} JoinSplit(parts: seq<string>)
    requires |parts| > 0 && forall p :: p in parts ==> DotFree(p)
    ensures Split(Join(parts)) == parts
  {
    if |parts| == 1 {
      SplitDotFree(parts[0]);
      assert Join(parts) == parts[0] && parts == [parts[0]];
    } else {
      JoinSplit(parts[1..]);
      assert Join(parts) == parts[0] + "." + Join(parts[1..]);
      hide Join;
      SplitFirst(parts[0], Join(parts[1..]));
      assert parts == [parts[0]] + parts[1..];
    }
  }

  /** Reads up to the next dot, or to the end. The loop behind each std::getline. */
  method ReadToken(s: string, start: nat) returns (token: string, next: nat)
    requires start < |s|
    ensures start < next <= |s|
    ensures DotFree(token)
    ensures Tokens(s[start..]) == [token] + Tokens(s[next..])
  {
    hide Tokens;
    next := start;
    token := "";
    while next < |s| && s[next] != '.'
      invariant start <= next <= |s| && DotFree(token)
      invariant token == s[start..next]
    {
      token := token + [s[next]];
      next := next + 1;
    }
    if next < |s| {
      TokensFirst(token, s[next + 1..]);
      assert s[start..] == token + "." + s[next + 1..];
      next := next + 1;
    } else {
      assert s[start..] == token && s[next..] == "";
      TokensLast(token);
      TokensLast("");
    }
  }

  method Tokenize(s: string) returns (tokens: seq<string>)
    ensures tokens == Tokens(s)
  {
    hide Tokens;
    tokens := [];
    var at := 0;
    assert s[0..] == s;
    while at < |s|
      invariant 0 <= at <= |s|
      invariant tokens + Tokens(s[at..]) == Tokens(s)
    {
      var token, next := ReadToken(s, at);
      assert tokens + ([token] + Tokens(s[next..])) == tokens + [token] + Tokens(s[next..]);
      tokens := tokens + [token];
      at := next;
    }
    assert s[at..] == "";
    TokensLast("");
  }

  // ----- Matching -----

  /** A token of a pattern meets a token of a subject. */
  predicate Meets(p: string, t: string) {
    p == "*" || p == t
  }

  /** Token by token, as far as the pattern goes. */
  predicate MeetsAll(pattern: seq<string>, subject: seq<string>)
    requires |pattern| <= |subject|
  {
    forall i :: 0 <= i < |pattern| ==> Meets(pattern[i], subject[i])
  }

  /** A pattern ending in ">" covers every subject with at least one more token; another has the subject's length. */
  predicate Covers(pattern: seq<string>, subject: seq<string>) {
    if pattern != [] && pattern[|pattern| - 1] == ">" then
      |subject| >= |pattern| && MeetsAll(pattern[..|pattern| - 1], subject)
    else
      |subject| == |pattern| && MeetsAll(pattern, subject)
  }

  /** The pattern up to and including its first ">". */
  function UpToTail(pattern: seq<string>): (p: seq<string>)
    ensures forall i :: 0 <= i < |p| - 1 ==> p[i] != ">"
  {
    if pattern == [] then []
    else if pattern[0] == ">" then [">"]
    else [pattern[0]] + UpToTail(pattern[1..])
  }

  predicate TailOnlyLast(pattern: seq<string>) {
    forall i :: 0 <= i < |pattern| - 1 ==> pattern[i] != ">"
  }

  lemma {:induction false} UpToTailSame(pattern: seq<string>)
    requires TailOnlyLast(pattern)
    ensures UpToTail(pattern) == pattern
  {
    if pattern != [] {
      UpToTailSame(pattern[1..]);
    }
  }

  /** The matching loop, as a recursion from the token pair at i. */
  lemma {:induction false} UpToTailAt(pattern: seq<string>, i: nat)
    requires i <= |pattern| && forall j :: 0 <= j < i ==> pattern[j] != ">"
    ensures UpToTail(pattern) == pattern[..i] + UpToTail(pattern[i..])
  {
    if i > 0 {
      UpToTailAt(pattern[1..], i - 1);
      assert pattern[1..][i - 1..] == pattern[i..] && pattern[..i] == [pattern[0]] + pattern[1..][..i - 1];
    } else {
      assert pattern[0..] == pattern;
    }
  }

  /** The tokens before i have met, without any ">". */
  predicate MetUpTo(pattern: seq<string>, subject: seq<string>, i: nat)
    requires i <= |pattern| && i <= |subject|
  {
    forall j :: 0 <= j < i ==> pattern[j] != ">" && Meets(pattern[j], subject[j])
  }

  lemma PatternEnds(pattern: seq<string>, subject: seq<string>)
    requires |pattern| <= |subject| && MetUpTo(pattern, subject, |pattern|)
    ensures Covers(UpToTail(pattern), subject) <==> |subject| == |pattern|
  {
    UpToTailSame(pattern);
    hide UpToTail;
  }

  lemma SubjectEnds(pattern: seq<string>, subject: seq<string>)
    requires |subject| < |pattern| && MetUpTo(pattern, subject, |subject|)
    ensures !Covers(UpToTail(pattern), subject)
  {
    UpToTailAt(pattern, |subject|);
    assert UpToTail(pattern[|subject|..]) != [];
    hide UpToTail;
  }

  lemma TailReached(pattern: seq<string>, subject: seq<string>, i: nat)
    requires i < |pattern| && i < |subject| && MetUpTo(pattern, subject, i) && pattern[i] == ">"
    ensures Covers(UpToTail(pattern), subject)
  {
    UpToTailAt(pattern, i);
    assert UpToTail(pattern[i..]) == [">"];
    hide UpToTail;
  }

  lemma Mismatch(pattern: seq<string>, subject: seq<string>, i: nat)
    requires i < |pattern| && i < |subject| && MetUpTo(pattern, subject, i)
    requires pattern[i] != ">" && !Meets(pattern[i], subject[i])
    ensures !Covers(UpToTail(pattern), subject)
  {
    UpToTailAt(pattern, i);
    var u := UpToTail(pattern);
    assert u[i] == pattern[i];
    hide UpToTail;
  }

  /** The loop over both token lists decides coverage by the pattern up to its first ">", for all token lists. */
  method MatchTokens(pattern: seq<string>, subject: seq<string>) returns (matches: bool)
    ensures matches == Covers(UpToTail(pattern), subject)
  {
    hide UpToTail;
    hide Covers;
    var pi := 0;
    var si := 0;
    while si < |subject|
      invariant 0 <= pi == si <= |subject| && pi <= |pattern|
      invariant MetUpTo(pattern, subject, pi)
    {
      if pi >= |pattern| {
        PatternEnds(pattern, subject);
        return false;
      }
      if pattern[pi] == ">" {
        TailReached(pattern, subject, pi);
        return true;
      }
      if pattern[pi] != "*" && pattern[pi] != subject[si] {
        Mismatch(pattern, subject, pi);
        return false;
      }
      si, pi := si + 1, pi + 1;
    }
    if pi == |pattern| {
      PatternEnds(pattern, subject);
    } else {
      SubjectEnds(pattern, subject);
    }
    return pi == |pattern|;
  }

  /** The loop decides plain coverage for all subjects iff the pattern has ">" only at its end. */
  lemma CoverageIffTailLast(pattern: seq<string>)
    ensures (forall subject: seq<string> :: Covers(UpToTail(pattern), subject) <==> Covers(pattern, subject)) <==>
            TailOnlyLast(pattern)
  {
    if TailOnlyLast(pattern) {
      UpToTailSame(pattern);
    } else {
      var i := FirstTail(pattern);
      var subject := pattern[..i] + [""];
      assert forall j :: 0 <= j < i ==> subject[j] == pattern[j];
      TailReached(pattern, subject, i);
      assert Covers(UpToTail(pattern), subject) && !Covers(pattern, subject);
    }
  }

  lemma FirstTail(pattern: seq<string>) returns (i: nat)
    requires !TailOnlyLast(pattern)
    ensures i < |pattern| - 1 && pattern[i] == ">" && forall j :: 0 <= j < i ==> pattern[j] != ">"
  {
    i := 0;
    while pattern[i] != ">"
      invariant i < |pattern| - 1 && forall j :: 0 <= j < i ==> pattern[j] != ">"
      decreases |pattern| - i
    {
      i := i + 1;
    }
  }

  /** Whether a subscription pattern matches a subject. */
  predicate Matches(pattern: string, subject: string) {
    Covers(UpToTail(Tokens(pattern)), Tokens(subject))
  }

  /** For patterns with ">" only at the end the answer is plain coverage, token by token. */
  lemma MatchesIsCoverage(pattern: string, subject: string)
    requires TailOnlyLast(Tokens(pattern))
    ensures Matches(pattern, subject) <==> Covers(Tokens(pattern), Tokens(subject))
  {
    UpToTailSame(Tokens(pattern));
  }

  lemma {:induction false} CoversItself(tokens: seq<string>)
    ensures Covers(UpToTail(tokens), tokens)
  {
    if tokens != [] && tokens[0] != ">" {
      CoversItself(tokens[1..]);
      var rest := UpToTail(tokens[1..]);
      assert UpToTail(tokens) == [tokens[0]] + rest;
      forall i | 0 <= i < |rest|
        ensures i < |tokens| - 1 && (Meets(rest[i], tokens[1..][i]) || i == |rest| - 1)
      {
      }
    }
  }

  /** The matcher with its shortcut; the shortcut never changes the answer. */
  method SubjectMatchesPattern(pattern: string, subject: string) returns (matches: bool)
    ensures matches == Matches(pattern, subject)
  {
    if pattern == subject {
      CoversItself(Tokens(pattern));
      return true;
    }
    var patternTokens := Tokenize(pattern);
    var subjectTokens := Tokenize(subject);
    matches := MatchTokens(patternTokens, subjectTokens);
  }
}
