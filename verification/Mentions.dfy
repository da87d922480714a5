// The version scanner of the world-mention reader: every candidate on a line is
// read or reported, never passed over.

module Mentions {
  import opened Profiles

  predicate Digit(c: char) { '0' <= c <= '9' }

  predicate Letter(c: char) { 'a' <= c <= 'z' || 'A' <= c <= 'Z' }

  /** Digits and dots, of which a version's run is made. */
  predicate Dotted(c: char) { Digit(c) || c == '.' }

  predicate Word(c: char) { Digit(c) || Letter(c) || c == '.' || c == '-' }

  predicate Digits(line: string, from: nat, to: nat) {
    from < to <= |line| && forall i :: from <= i < to ==> Digit(line[i])
  }

  predicate BetweenClauses(c: char) { c in {' ', '\t', ')', ',', ';', ':'} }

  // ----- tags

  /** End of line, a clause mark, or a full stop that ends a sentence. */
  predicate ClauseEnds(line: string, at: nat) {
    at >= |line| || BetweenClauses(line[at])
    || (line[at] == '.' && (at + 1 >= |line| || line[at + 1] in {' ', '\t'}))
  }

  /**
   * A tag, `M` digits `-` (`K` or `P`) digits, stands from `from` to `to`, its dash at `dash`, and a clause
   * ends there.
   */
  predicate TagWith(line: string, from: nat, dash: nat, to: nat) {
    && from < |line| && line[from] == 'M' && Digits(line, from + 1, dash)
    && dash + 1 < |line| && line[dash] == '-' && line[dash + 1] in {'K', 'P'} && Digits(line, dash + 2, to)
    && ClauseEnds(line, to)
  }

  ghost predicate Tag(line: string, from: nat, to: nat) { exists dash: nat :: TagWith(line, from, dash, to) }

  /** A line's text holds at most one tag from a given position. */
  lemma TagOnce(line: string, from: nat, d: nat, t: nat, e: nat, u: nat)
    requires TagWith(line, from, d, t) && TagWith(line, from, e, u)
    ensures d == e && t == u
  {
  }

  /** The end of a stretch of digits, if there is one. */
  method DigitsFrom(line: string, from: nat) returns (end: Option<nat>)
    ensures end.None? <==> from >= |line| || !Digit(line[from])
    ensures end.Some? ==> Digits(line, from, end.value) && (end.value < |line| ==> !Digit(line[end.value]))
  {
    var at := from;
    while at < |line| && Digit(line[at])
      invariant from <= at && (at > from ==> Digits(line, from, at))
    {
      at := at + 1;
    }
    end := if at > from then Some(at) else None;
  }

  lemma DashIs(line: string, from: nat, dash: nat, d: nat, to: nat)
    requires Digits(line, from + 1, dash) && (dash < |line| ==> !Digit(line[dash])) && TagWith(line, from, d, to)
    ensures d == dash
  {}

  lemma EndIs(line: string, from: nat, dash: nat, to: nat, u: nat)
    requires Digits(line, dash + 2, to) && (to < |line| ==> !Digit(line[to])) && TagWith(line, from, dash, u)
    ensures u == to
  {}

  /** The end of a tag read exactly at `from`. */
  method ExactTag(line: string, from: nat) returns (end: Option<nat>)
    ensures end.Some? ==> Tag(line, from, end.value)
    ensures forall to: nat :: Tag(line, from, to) ==> end == Some(to)
  {
    if from >= |line| || line[from] != 'M' { return None; }
    var dash := DigitsFrom(line, from + 1);
    if dash.None? { return None; }
    forall d: nat, to: nat | TagWith(line, from, d, to) ensures d == dash.value {
      DashIs(line, from, dash.value, d, to);
    }
    if dash.value + 1 >= |line| || line[dash.value] != '-' || line[dash.value + 1] !in {'K', 'P'} { return None; }
    var to := DigitsFrom(line, dash.value + 2);
    if to.None? { return None; }
    forall u: nat | TagWith(line, from, dash.value, u) ensures u == to.value {
      EndIs(line, from, dash.value, to.value, u);
    }
    if !ClauseEnds(line, to.value) { return None; }
    assert TagWith(line, from, dash.value, to.value);
    end := to;
  }

  /** The first position from `at` on that is not a blank. */
  function PastBlanks(line: string, at: nat): (end: nat)
    ensures at <= end && (at <= |line| ==> end <= |line|)
    ensures forall i :: at <= i < end && i < |line| ==> line[i] == ' '
    ensures end < |line| ==> line[end] != ' '
    decreases |line| - at
  {
    if at < |line| && line[at] == ' ' then PastBlanks(line, at + 1) else at
  }

  method SkipBlanks(line: string, from: nat) returns (at: nat)
    ensures at == PastBlanks(line, from)
  {
    at := from;
    while at < |line| && line[at] == ' '
      invariant PastBlanks(line, at) == PastBlanks(line, from)
    {
      at := at + 1;
    }
  }

  predicate Separated(line: string, from: nat) {
    PastBlanks(line, from) < |line| && line[PastBlanks(line, from)] in {',', ';', '('}
  }

  /** Where a tag would stand after a version: past blanks, and past a separator and its blanks if there is one. */
  function TagPlace(line: string, from: nat): nat {
    if Separated(line, from) then PastBlanks(line, PastBlanks(line, from) + 1) else PastBlanks(line, from)
  }

  /** Something after a version starts like a tag: a separator, or an `M` with a digit. */
  predicate Attempts(line: string, from: nat) {
    Separated(line, from) ||
    (TagPlace(line, from) + 1 < |line| && line[TagPlace(line, from)] == 'M' && Digit(line[TagPlace(line, from) + 1]))
  }

  datatype After = Undated | Dated(from: nat, to: nat) | Malformed(end: nat)

  /** The first clause mark from `at` on, or the line's end. */
  predicate MarksEnd(line: string, at: nat, end: nat) {
    && at <= end <= |line| && (forall i :: at <= i < end ==> !BetweenClauses(line[i]))
    && (end < |line| ==> BetweenClauses(line[end]))
  }

  /** What follows a version: nothing that reads as a tag attempt, a tag read exactly, or a malformed attempt. */
  method TagAfter(line: string, from: nat) returns (after: After)
    requires from <= |line|
    ensures after.Undated? <==> !Attempts(line, from)
    ensures after.Dated? <==> Attempts(line, from) && exists to: nat :: Tag(line, TagPlace(line, from), to)
    ensures after.Dated? ==> after.from == TagPlace(line, from) && Tag(line, after.from, after.to)
    ensures after.Malformed? ==> MarksEnd(line, TagPlace(line, from), after.end)
  {
    var at := SkipBlanks(line, from);
    var separated := at < |line| && line[at] in {',', ';', '('};
    if separated { at := SkipBlanks(line, at + 1); }
    var attempt := at + 1 < |line| && line[at] == 'M' && Digit(line[at + 1]);
    if !separated && !attempt { return Undated; }
    var end := ExactTag(line, at);
    assert at == TagPlace(line, from) && Attempts(line, from);
    if end.Some? {
      assert Tag(line, TagPlace(line, from), end.value);
      return Dated(at, end.value);
    }
    var to := at;
    while to < |line| && !BetweenClauses(line[to])
      invariant at <= to <= |line| && forall i :: at <= i < to ==> !BetweenClauses(line[i])
    {
      to := to + 1;
    }
    return Malformed(to);
  }

  /** A tag is itself an attempt: a version is dated exactly when a tag stands where one would. */
  lemma TagIsAttempt(line: string, from: nat, to: nat)
    requires Tag(line, TagPlace(line, from), to)
    ensures Attempts(line, from)
  {
    var dash: nat :| TagWith(line, TagPlace(line, from), dash, to);
    assert Digit(line[TagPlace(line, from) + 1]);
  }

  // ----- runs

  /** A digit-led run: from the first digit of a stretch of digits and dots to the stretch's end. */
  predicate Run(line: string, from: nat, to: nat) {
    && from < to <= |line| && Digit(line[from]) && (forall i :: from <= i < to ==> Dotted(line[i]))
    && (to < |line| ==> !Dotted(line[to]))
    && LedBy(line, from)
  }

  /** Only dots stand between a position and the start of its stretch. */
  predicate LedBy(line: string, from: nat)
    requires from <= |line|
    decreases from
  {
    from == 0 || !Dotted(line[from - 1]) || (line[from - 1] == '.' && LedBy(line, from - 1))
  }

  function Dots(run: string): nat {
    if run == [] then 0 else Dots(run[..|run| - 1]) + if run[|run| - 1] == '.' then 1 else 0
  }

  /** A run the reader must not pass over: two dots or more, and no `@` before it. */
  predicate Candidate(line: string, from: nat, to: nat) {
    Run(line, from, to) && Dots(line[from..to]) >= 2 && !(from > 0 && line[from - 1] == '@')
  }

  /** Two dots, and so three parts, none of them empty. */
  predicate ThreeParts(run: string) {
    && Dots(run) == 2 && run != [] && run[0] != '.' && run[|run| - 1] != '.'
    && forall k :: 0 <= k < |run| - 1 ==> !(run[k] == '.' && run[k + 1] == '.')
  }

  /** Nothing alphanumeric, and no dash, stands against either end. */
  predicate Bounded(line: string, from: nat, to: nat) {
    && !(0 < from <= |line| && (Digit(line[from - 1]) || Letter(line[from - 1]) || line[from - 1] == '-'))
    && !(to < |line| && (Digit(line[to]) || Letter(line[to]) || line[to] == '-'))
  }

  /** One token found: a version with what follows it, or text that does not read as one. */
  datatype Bare = Version(from: nat, to: nat, tag: Option<(nat, nat)>) | Unreadable(from: nat, to: nat)

  /** Whether a run splits at its dots into three parts, none empty. */
  method SplitsInThree(run: string) returns (three: bool)
    ensures three <==> ThreeParts(run)
  {
    var dots := CountDots(run);
    if dots != 2 || run == [] || run[0] == '.' || run[|run| - 1] == '.' { return false; }
    for k := 0 to |run| - 1
      invariant forall i :: 0 <= i < k ==> !(run[i] == '.' && run[i + 1] == '.')
    {
      if run[k] == '.' && run[k + 1] == '.' { return false; }
    }
    three := true;
  }

  method CountDots(run: string) returns (n: nat)
    ensures n == Dots(run)
  {
    n := 0;
    for i := 0 to |run|
      invariant n == Dots(run[..i])
    {
      assert run[..i + 1][..i] == run[..i];
      if run[i] == '.' { n := n + 1; }
    }
    assert run[..|run|] == run;
  }

  // ----- the scan

  /** Tokens in order, apart from each other, each ending where no word goes on. */
  predicate Apart(line: string, found: seq<Bare>, at: nat) {
    && (forall k :: 0 <= k < |found| ==> found[k].from < found[k].to <= at && found[k].to <= |line|)
    && (forall k :: 0 <= k < |found| && found[k].to < |line| ==> !Word(line[found[k].to]))
    && (forall j, k :: 0 <= j < k < |found| ==> found[j].to <= found[k].from)
  }

  predicate Covers(token: Bare, from: nat, to: nat) { token.from <= from && to <= token.to }

  /**
   * A candidate is answered for: it is the one a token was read from, or it starts strictly inside the
   * unreadable token of an earlier one.
   */
  predicate Accounted(found: seq<Bare>, leads: seq<(nat, nat)>, from: nat, to: nat)
    requires |leads| == |found|
  {
    exists k :: 0 <= k < |found| && Covers(found[k], from, to)
                && (leads[k] == (from, to) || (found[k].Unreadable? && leads[k].0 < from))
  }

  /** Every candidate that starts before `at` is answered for. */
  ghost predicate AllFound(line: string, found: seq<Bare>, leads: seq<(nat, nat)>, at: nat)
    requires |leads| == |found|
  {
    forall from: nat, to: nat :: from < at && Candidate(line, from, to) ==> Accounted(found, leads, from, to)
  }

  /** A version token reads the run from `from` to `to`, dated exactly when a tag stands after it. */
  ghost predicate VersionOf(line: string, from: nat, to: nat, token: Bare) {
    && token.Version? && token.from == from && token.to == to
    && (token.tag.Some? <==> exists end: nat :: Tag(line, TagPlace(line, to), end))
    && (token.tag.Some? ==> token.tag.value.0 == TagPlace(line, to) && Tag(line, token.tag.value.0, token.tag.value.1))
  }

  /** An unreadable token is the whole word around a run. */
  predicate WordAround(line: string, from: nat, to: nat, token: Bare) {
    && token.Unreadable? && token.from <= from < to <= token.to <= |line|
    && (forall i :: token.from <= i < from ==> Word(line[i])) && (forall i :: to <= i < token.to ==> Word(line[i]))
    && (token.from > 0 ==> !Word(line[token.from - 1])) && (token.to < |line| ==> !Word(line[token.to]))
  }

  /**
   * What one candidate is read as, and how far the token runs: a version where the grammar reads one, from
   * the candidate to the end of its clause where a tag is broken, and the word around it otherwise.
   */
  ghost predicate ReadAs(line: string, from: nat, to: nat, token: Bare)
    requires from <= to <= |line|
  {
    if ReadsAsVersion(line, from, to) then VersionOf(line, from, to, token)
    else if Bounded(line, from, to) && ThreeParts(line[from..to]) then
      token.Unreadable? && token.from == from && MarksEnd(line, TagPlace(line, to), token.to)
    else WordAround(line, from, to, token)
  }

  /**
   * A candidate is read as a version, not reported, exactly when it is bounded, of three parts, and not
   * followed by a broken tag.
   */
  ghost predicate ReadsAsVersion(line: string, from: nat, to: nat)
    requires from <= to <= |line|
  {
    && Bounded(line, from, to) && ThreeParts(line[from..to])
    && (Attempts(line, to) ==> exists end: nat :: Tag(line, TagPlace(line, to), end))
  }

  /** A candidate has one reading: whatever is read from it is the same token, to the character. */
  lemma ReadOnce(line: string, from: nat, to: nat, a: Bare, b: Bare)
    requires from < to <= |line| && ReadAs(line, from, to, a) && ReadAs(line, from, to, b)
    ensures a == b
  {
    if ReadsAsVersion(line, from, to) {
      if a.tag.Some? {
        var at := TagPlace(line, to);
        var d: nat :| TagWith(line, at, d, a.tag.value.1);
        var e: nat :| TagWith(line, at, e, b.tag.value.1);
        TagOnce(line, at, d, a.tag.value.1, e, b.tag.value.1);
      }
    } else if Bounded(line, from, to) && ThreeParts(line[from..to]) {
      MarksEndOnce(line, TagPlace(line, to), a.to, b.to);
    } else {
      WordOnce(line, from, to, a, b);
    }
  }

  lemma MarksEndOnce(line: string, at: nat, end: nat, other: nat)
    requires MarksEnd(line, at, end) && MarksEnd(line, at, other)
    ensures end == other
  {}

  lemma WordOnce(line: string, from: nat, to: nat, a: Bare, b: Bare)
    requires WordAround(line, from, to, a) && WordAround(line, from, to, b)
    ensures a == b
  {}

  /** A run starting inside a stretch that ends where no digit or dot goes on ends inside it too. */
  lemma RunWithin(line: string, from: nat, to: nat, end: nat)
    requires Run(line, from, to) && from < end <= |line| && (end < |line| ==> !Dotted(line[end]))
    ensures to <= end
  {
  }

  /** Positions skipped that are not digits, or not led, start no run. */
  lemma NoRunAt(line: string, found: seq<Bare>, leads: seq<(nat, nat)>, at: nat)
    requires |leads| == |found| && AllFound(line, found, leads, at) && at < |line| && !Digit(line[at])
    ensures AllFound(line, found, leads, at + 1)
  {}

  /** Runs are their stretch's own: two runs that overlap are one. */
  lemma {:induction false} LedOnce(line: string, from: nat, at: nat)
    requires from < at <= |line| && LedBy(line, at) && (forall i :: from <= i < at ==> Dotted(line[i]))
             && Digit(line[from])
    ensures false
    decreases at
  {
    if from + 1 < at { LedOnce(line, from, at - 1); }
  }

  /** Where the scan stands: nothing digit-led runs on across it. */
  predicate Clean(line: string, at: nat)
    requires at <= |line|
  {
    LedBy(line, at) || at == |line| || !Dotted(line[at])
  }

  /** Each token is what its own candidate is read as. */
  ghost predicate AllRead(line: string, found: seq<Bare>, leads: seq<(nat, nat)>)
    requires |leads| == |found|
  {
    forall k :: 0 <= k < |found| ==>
      Candidate(line, leads[k].0, leads[k].1) && ReadAs(line, leads[k].0, leads[k].1, found[k])
  }

  /** What the scan keeps. */
  ghost predicate Scanned(line: string, found: seq<Bare>, leads: seq<(nat, nat)>, at: nat) {
    && |leads| == |found| && at <= |line| && Apart(line, found, at) && AllFound(line, found, leads, at)
    && Clean(line, at)
    && AllRead(line, found, leads)
  }

  lemma SkipOne(line: string, found: seq<Bare>, leads: seq<(nat, nat)>, at: nat)
    requires Scanned(line, found, leads, at) && at < |line| && !Digit(line[at])
    ensures Scanned(line, found, leads, at + 1)
  {
    NoRunAt(line, found, leads, at);
  }

  /** The digits and dots from a digit the scan stands at are one run, and no other starts among them. */
  lemma RunHere(line: string, found: seq<Bare>, leads: seq<(nat, nat)>, start: nat, at: nat)
    requires Scanned(line, found, leads, start) && start < at <= |line| && Digit(line[start])
    requires (forall i :: start <= i < at ==> Dotted(line[i])) && (at < |line| ==> !Dotted(line[at]))
    ensures Run(line, start, at)
    ensures forall from: nat, to: nat :: start <= from < at && Run(line, from, to) ==> from == start && to == at
  {
    forall from: nat, to: nat | start <= from < at && Run(line, from, to) ensures from == start && to == at {
      if from > start { LedOnce(line, start, from); }
      RunWithin(line, from, to, at);
    }
  }

  /** A run that is not a candidate is passed over with nothing lost. */
  lemma SkipRun(line: string, found: seq<Bare>, leads: seq<(nat, nat)>, start: nat, at: nat)
    requires Scanned(line, found, leads, start) && start < at <= |line| && Digit(line[start])
    requires (forall i :: start <= i < at ==> Dotted(line[i])) && (at < |line| ==> !Dotted(line[at]))
    requires !Candidate(line, start, at)
    ensures Scanned(line, found, leads, at)
  {
    RunHere(line, found, leads, start, at);
  }

  /** The token a run is read as covers it, and runs on to where no word goes on. */
  lemma TakeToken(line: string, found: seq<Bare>, leads: seq<(nat, nat)>, start: nat, at: nat, token: Bare)
    requires Scanned(line, found, leads, start) && start < at <= token.to <= |line| && Digit(line[start])
    requires (forall i :: start <= i < at ==> Dotted(line[i])) && (at < |line| ==> !Dotted(line[at]))
    requires token.from <= start && (token.to < |line| ==> !Word(line[token.to]))
    requires forall k :: 0 <= k < |found| ==> found[k].to <= token.from
    requires Candidate(line, start, at) && ReadAs(line, start, at, token) && (token.Version? ==> token.to == at)
    ensures Scanned(line, found + [token], leads + [(start, at)], token.to)
  {
    hide ReadAs, Candidate, Accounted;
    var more, led := found + [token], leads + [(start, at)];
    forall from: nat, to: nat | from < token.to && Candidate(line, from, to) ensures Accounted(more, led, from, to) {
      TokenAccounts(line, found, leads, start, at, token, from, to);
    }
    assert AllRead(line, more, led);
  }

  /** A candidate before the token's end was answered for already, or the token answers for it. */
  lemma TokenAccounts(line: string, found: seq<Bare>, leads: seq<(nat, nat)>, start: nat, at: nat, token: Bare,
                      from: nat, to: nat)
    requires Scanned(line, found, leads, start) && start < at <= token.to <= |line| && Digit(line[start])
    requires (forall i :: start <= i < at ==> Dotted(line[i])) && (at < |line| ==> !Dotted(line[at]))
    requires token.from <= start && (token.to < |line| ==> !Word(line[token.to])) && (token.Version? ==> token.to == at)
    requires from < token.to && Candidate(line, from, to)
    ensures Accounted(found + [token], leads + [(start, at)], from, to)
  {
    var more, led := found + [token], leads + [(start, at)];
    CandidateRuns(line, from, to);
    hide Candidate, AllRead, ReadAs;
    if from < start {
      assert Accounted(found, leads, from, to);
      var k :| 0 <= k < |found| && Covers(found[k], from, to)
               && (leads[k] == (from, to) || (found[k].Unreadable? && leads[k].0 < from));
      assert more[k] == found[k] && led[k] == leads[k];
    } else {
      RunHere(line, found, leads, start, at);
      RunWithin(line, from, to, token.to);
      assert Covers(more[|found|], from, to) && led[|found|] == (start, at);
    }
  }

  lemma CandidateRuns(line: string, from: nat, to: nat)
    requires Candidate(line, from, to)
    ensures Run(line, from, to)
  {}

  /** The start of the text around a run that does not read as a version. */
  method WordStart(line: string, found: seq<Bare>, start: nat) returns (from: nat)
    requires start < |line| && Apart(line, found, start) && Digit(line[start])
    ensures from <= start && forall k :: 0 <= k < |found| ==> found[k].to <= from
    ensures (forall i :: from <= i <= start ==> Word(line[i])) && (from > 0 ==> !Word(line[from - 1]))
  {
    from := start;
    while from > 0 && Word(line[from - 1])
      invariant from <= start && forall k :: 0 <= k < |found| ==> found[k].to <= from
      invariant forall i :: from <= i <= start ==> Word(line[i])
    {
      from := from - 1;
    }
  }

  /** What one candidate run is read or reported as. */
  method ReadRun(line: string, found: seq<Bare>, ghost leads: seq<(nat, nat)>, start: nat, at: nat)
      returns (token: Bare)
    requires Scanned(line, found, leads, start) && start < at <= |line| && Digit(line[start])
    requires (forall i :: start <= i < at ==> Dotted(line[i])) && (at < |line| ==> !Dotted(line[at]))
    requires Candidate(line, start, at)
    ensures token.from <= start && at <= token.to <= |line| && (token.to < |line| ==> !Word(line[token.to]))
    ensures forall k :: 0 <= k < |found| ==> found[k].to <= token.from
    ensures token.Version? <==> ReadsAsVersion(line, start, at)
    ensures ReadAs(line, start, at, token)
  {
    hide AllFound, AllRead;
    var three := SplitsInThree(line[start..at]);
    if Bounded(line, start, at) && three {
      var after := TagAfter(line, at);
      match after {
        case Undated =>
          NoTagUnattempted(line, at);
          return Version(start, at, None);
        case Dated(from, to) => return Version(start, at, Some((from, to)));
        case Malformed(end) =>
          assert end == at ==> at < |line| ==> !Word(line[at]);
          return Unreadable(start, end);
      }
    }
    var from := WordStart(line, found, start);
    var to := at;
    while to < |line| && Word(line[to])
      invariant at <= to <= |line| && forall i :: at <= i < to ==> Word(line[i])
    {
      to := to + 1;
    }
    return Unreadable(from, to);
  }

  lemma NoTagUnattempted(line: string, from: nat)
    requires !Attempts(line, from)
    ensures forall to: nat :: !Tag(line, TagPlace(line, from), to)
  {
    forall to: nat ensures !Tag(line, TagPlace(line, from), to) {
      if Tag(line, TagPlace(line, from), to) { TagIsAttempt(line, from, to); }
    }
  }

  /**
   * Every bare version token on one line, in order and apart. Each token is exactly what its own candidate
   * run is read as, in kind, extent and date; and every candidate is one that a token was read from, or
   * starts strictly inside the unreadable token of an earlier one.
   */
  method BareVersions(line: string) returns (found: seq<Bare>, ghost leads: seq<(nat, nat)>)
    ensures |leads| == |found| && Apart(line, found, |line|)
    ensures forall k :: 0 <= k < |found| ==>
              Candidate(line, leads[k].0, leads[k].1) && ReadAs(line, leads[k].0, leads[k].1, found[k])
    ensures forall from: nat, to: nat :: Candidate(line, from, to) ==> Accounted(found, leads, from, to)
  {
    hide AllFound, AllRead, Candidate, ReadAs, Apart, Clean, ThreeParts, Bounded, ReadsAsVersion, Tag, Accounted;
    found, leads := [], [];
    var at := 0;
    NothingScanned(line);
    while at < |line|
      invariant Scanned(line, found, leads, at)
      decreases |line| - at
    {
      if !Digit(line[at]) {
        SkipOne(line, found, leads, at);
        at := at + 1;
        continue;
      }
      var start := at;
      while at < |line| && Dotted(line[at])
        invariant start <= at <= |line| && (at == start ==> Digit(line[start]))
        invariant forall i :: start <= i < at ==> Dotted(line[i])
      {
        at := at + 1;
      }
      RunHere(line, found, leads, start, at);
      var dots := CountDots(line[start..at]);
      IsCandidate(line, start, at);
      if dots < 2 || (start > 0 && line[start - 1] == '@') {
        SkipRun(line, found, leads, start, at);
        continue;
      }
      var token := ReadRun(line, found, leads, start, at);
      VersionEnds(line, start, at, token);
      TakeToken(line, found, leads, start, at, token);
      found, leads := found + [token], leads + [(start, at)];
      at := token.to;
    }
    AllScanned(line, found, leads);
  }

  lemma VersionEnds(line: string, from: nat, to: nat, token: Bare)
    requires from <= to <= |line| && ReadAs(line, from, to, token)
    ensures token.Version? ==> token.to == to
  {}

  lemma NothingScanned(line: string)
    ensures Scanned(line, [], [], 0)
  {}

  lemma IsCandidate(line: string, from: nat, to: nat)
    requires Run(line, from, to)
    ensures Candidate(line, from, to) <==> Dots(line[from..to]) >= 2 && !(from > 0 && line[from - 1] == '@')
  {}

  lemma AllScanned(line: string, found: seq<Bare>, leads: seq<(nat, nat)>)
    requires Scanned(line, found, leads, |line|)
    ensures Apart(line, found, |line|)
    ensures forall k :: 0 <= k < |found| ==>
              Candidate(line, leads[k].0, leads[k].1) && ReadAs(line, leads[k].0, leads[k].1, found[k])
    ensures forall from: nat, to: nat :: Candidate(line, from, to) ==> Accounted(found, leads, from, to)
  {
    hide Candidate, ReadAs, Accounted;
    forall from: nat, to: nat | Candidate(line, from, to) ensures Accounted(found, leads, from, to) {
      CandidateFits(line, from, to);
    }
  }

  lemma CandidateFits(line: string, from: nat, to: nat)
    requires Candidate(line, from, to)
    ensures from < to <= |line|
  {}

  /** Tokens kept apart hold each candidate once. */
  lemma FoundOnce(line: string, found: seq<Bare>, from: nat, to: nat, j: nat, k: nat)
    requires Apart(line, found, |line|) && from < to && j < |found| && k < |found|
    requires Covers(found[j], from, to) && Covers(found[k], from, to)
    ensures j == k
  {
  }

  // ----- the grammar as it is stated

  /** Whitespace, as the end of a clause reads it; the scanner passes only blanks before a tag. */
  predicate White(c: char) { c == ' ' || c == '\t' }

  /** The first position from `at` on that is not whitespace. */
  function PastWhite(line: string, at: nat): (end: nat)
    ensures at <= end && (at <= |line| ==> end <= |line|)
    ensures forall i :: at <= i < end && i < |line| ==> White(line[i])
    ensures end < |line| ==> !White(line[end])
    decreases |line| - at
  {
    if at < |line| && White(line[at]) then PastWhite(line, at + 1) else at
  }

  predicate StatedSeparated(line: string, from: nat) {
    PastWhite(line, from) < |line| && line[PastWhite(line, from)] in {',', ';', '('}
  }

  /**
   * Where the stated grammar looks for a tag: past whitespace, and past a separator and its whitespace if
   * there is one.
   */
  function StatedPlace(line: string, from: nat): nat {
    if StatedSeparated(line, from) then PastWhite(line, PastWhite(line, from) + 1) else PastWhite(line, from)
  }

  predicate StatedAttempts(line: string, from: nat) {
    StatedSeparated(line, from) ||
    (StatedPlace(line, from) + 1 < |line| && line[StatedPlace(line, from)] == 'M'
     && Digit(line[StatedPlace(line, from) + 1]))
  }

  /** How what follows a version reads: as a claim, as a date where a tag stands, or as a broken attempt at one. */
  datatype Following = Claim | DatedAt(place: nat) | BrokenTag

  /** What the scanner makes of what follows a version that ends at `from`. */
  ghost function ScannerReads(line: string, from: nat): Following {
    if exists to: nat :: Tag(line, TagPlace(line, from), to) then DatedAt(TagPlace(line, from))
    else if Attempts(line, from) then BrokenTag else Claim
  }

  ghost function StatedReads(line: string, from: nat): Following {
    if exists to: nat :: Tag(line, StatedPlace(line, from), to) then DatedAt(StatedPlace(line, from))
    else if StatedAttempts(line, from) then BrokenTag else Claim
  }

  /** A tab stands between a version and where the stated grammar looks for its tag. */
  predicate TabBetween(line: string, from: nat) {
    exists i :: from <= i < StatedPlace(line, from) && i < |line| && line[i] == '\t'
  }

  lemma {:induction false} BlanksThenWhite(line: string, at: nat)
    ensures PastBlanks(line, at) <= PastWhite(line, at) && PastWhite(line, PastBlanks(line, at)) == PastWhite(line, at)
    ensures PastBlanks(line, at) < PastWhite(line, at) ==> line[PastBlanks(line, at)] == '\t'
    decreases |line| - at
  {
    if at < |line| && line[at] == ' ' { BlanksThenWhite(line, at + 1); }
  }

  /**
   * Without a tab the scanner looks where the grammar does; with one it stops at the first, before a separator
   * or after.
   */
  lemma PlacesAgree(line: string, from: nat)
    requires from <= |line|
    ensures !TabBetween(line, from) ==>
              TagPlace(line, from) == StatedPlace(line, from)
              && (Separated(line, from) <==> StatedSeparated(line, from))
    ensures TabBetween(line, from) ==>
              && TagPlace(line, from) < |line| && line[TagPlace(line, from)] == '\t'
              && (Separated(line, from) ==> StatedSeparated(line, from))
  {
    BlanksThenWhite(line, from);
    var first := PastBlanks(line, from);
    if Separated(line, from) {
      BlanksThenWhite(line, first + 1);
      assert PastWhite(line, from) == first;
    } else if StatedSeparated(line, from) {
      assert first < PastWhite(line, from);
      assert line[first] == '\t' && first < StatedPlace(line, from);
    }
  }

  /**
   * The scanner dates what the grammar dates exactly when no tab stands between a version and a tag after it;
   * and it reads what follows a version as the grammar does exactly when, besides, no tab stands before
   * anything else the grammar takes for an attempt, separator included.
   */
  lemma ScannerReadsAsStatedWhen(line: string, from: nat)
    requires from <= |line|
    ensures (ScannerReads(line, from).DatedAt? <==> StatedReads(line, from).DatedAt?) <==>
              !(TabBetween(line, from) && exists to: nat :: Tag(line, StatedPlace(line, from), to))
    ensures ScannerReads(line, from) == StatedReads(line, from) <==>
              !(TabBetween(line, from) &&
                if Separated(line, from) then exists to: nat :: Tag(line, StatedPlace(line, from), to)
                else StatedAttempts(line, from))
  {
    hide PastWhite, PastBlanks, TabBetween;
    PlacesAgree(line, from);
    if exists to: nat :: Tag(line, StatedPlace(line, from), to) {
      var to: nat :| Tag(line, StatedPlace(line, from), to);
      var dash: nat :| TagWith(line, StatedPlace(line, from), dash, to);
      assert Digit(line[StatedPlace(line, from) + 1]);
    }
  }

  /** A tab before the tag: the grammar dates the version, the scanner takes it for a claim. */
  lemma TabHidesTheTag()
    ensures var line := "0.9.0\tM2-K16"; ScannerReads(line, 5) == Claim && StatedReads(line, 5) == DatedAt(6)
  {
    var line := "0.9.0\tM2-K16";
    assert PastBlanks(line, 5) == 5 && TagPlace(line, 5) == 5;
    assert PastWhite(line, 6) == 6 && PastWhite(line, 5) == 6 && StatedPlace(line, 5) == 6;
    assert TagWith(line, 6, 8, 12);
    assert Tag(line, 6, 12);
    forall to: nat ensures !Tag(line, 5, to) {}
  }
}
