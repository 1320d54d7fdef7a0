/**
 * The e-mail shape check of the contact form, the regular expression
 * `^[^\s@]+@[^\s@]+\.[^\s@]+$` tested against the untrimmed address.
 *
 * Three readings of it are given and proved to agree:
 *  - `Matches`, the regular expression's own meaning: the address splits into
 *    a non-empty run, `@`, a non-empty run, `.`, a non-empty run, where a run
 *    holds neither white space nor `@` (so the runs may hold dots);
 *  - `DescribedShape`, the plain description: no white space, exactly one
 *    `@`, something before it, and after it a dot with a character on either side;
 *  - `IsValidEmail`, a character-at-a-time scanner (a finite automaton), the
 *    executable form the form validator calls.
 */
module EmailPattern {
  import opened JsString

  /** A character of the class `[^\s@]`. */
  predicate Plain(c: char) {
    !IsWhitespace(c) && c != '@'
  }

  /** Every character of `s[lo..hi]` is in `[^\s@]`. */
  ghost predicate PlainRun(s: string, lo: int, hi: int)
    requires 0 <= lo <= hi <= |s|
  {
    forall k :: lo <= k < hi ==> Plain(s[k])
  }

  /** `@` at `at`, `.` at `dot`, and the three runs around them non-empty and plain. */
  ghost predicate SplitsAt(s: string, at: int, dot: int) {
    && 0 < at && at + 1 < dot && dot + 1 < |s|
    && s[at] == '@' && s[dot] == '.'
    && PlainRun(s, 0, at) && PlainRun(s, at + 1, dot) && PlainRun(s, dot + 1, |s|)
  }

  /** The regular expression matches the whole of `s`. */
  ghost predicate Matches(s: string) {
    exists at, dot :: SplitsAt(s, at, dot)
  }

  /** The only `@` of `s` is at index `at`. */
  ghost predicate OnlyAtSignAt(s: string, at: int) {
    0 <= at < |s| && s[at] == '@' && forall k :: 0 <= k < |s| && s[k] == '@' ==> k == at
  }

  /** The address in words: no white space; exactly one `@`, and not first;
      after it a `.` that has a character before it (after the `@`) and one
      after it. Several dots are allowed. */
  ghost predicate DescribedShape(s: string) {
    && (forall k :: 0 <= k < |s| ==> !IsWhitespace(s[k]))
    && exists at :: OnlyAtSignAt(s, at) && 0 < at
                    && exists dot :: at + 1 < dot < |s| - 1 && s[dot] == '.'
  }

  lemma MatchesIffDescribedShape(s: string)
    ensures Matches(s) <==> DescribedShape(s)
  {
    if Matches(s) {
      var at, dot :| SplitsAt(s, at, dot);
      forall k | 0 <= k < |s| ensures !IsWhitespace(s[k]) && (s[k] == '@' ==> k == at) {
        if k < at {
          assert Plain(s[k]);
        } else if at < k < dot {
          assert Plain(s[k]);
        } else if dot < k {
          assert Plain(s[k]);
        }
      }
      assert OnlyAtSignAt(s, at);
    }
    if DescribedShape(s) {
      var at :| OnlyAtSignAt(s, at) && 0 < at
                && exists dot :: at + 1 < dot < |s| - 1 && s[dot] == '.';
      var dot :| at + 1 < dot < |s| - 1 && s[dot] == '.';
      forall k | 0 <= k < |s| && k != at ensures Plain(s[k]) {
        assert !IsWhitespace(s[k]);
      }
      assert SplitsAt(s, at, dot);
    }
  }

  /** States of the scanner. `Local`: reading the part before `@`;
      `AtSign`: just read the `@`; `Domain`: after the `@`, no usable dot yet;
      `DomainDot`: just read a dot that has a character before it;
      `Accept`: such a dot has been followed by a character; `Reject`: dead. */
  datatype ScanState = Start | Local | AtSign | Domain | DomainDot | Accept | Reject

  function Step(q: ScanState, c: char): ScanState {
    match q
    case Start => if Plain(c) then Local else Reject
    case Local => if c == '@' then AtSign else if Plain(c) then Local else Reject
    case AtSign => if Plain(c) then Domain else Reject
    case Domain => if c == '.' then DomainDot else if Plain(c) then Domain else Reject
    case DomainDot => if Plain(c) then Accept else Reject
    case Accept => if Plain(c) then Accept else Reject
    case Reject => Reject
  }

  /** The state after scanning `s` from left to right. */
  function Run(s: string): ScanState {
    if s == [] then Start else Step(Run(s[..|s| - 1]), s[|s| - 1])
  }

  /** The test `/^[^\s@]+@[^\s@]+\.[^\s@]+$/.test(email)` of `ContactForm.tsx`. */
  function IsValidEmail(s: string): bool {
    Run(s) == Accept
  }

  /** What each non-dead state says about the text scanned so far. */
  ghost predicate Explains(q: ScanState, p: string) {
    match q
    case Start => p == []
    case Local => p != [] && PlainRun(p, 0, |p|)
    case AtSign => |p| >= 2 && p[|p| - 1] == '@' && PlainRun(p, 0, |p| - 1)
    case Domain =>
      exists at :: 0 < at < |p| - 1 && p[at] == '@' && PlainRun(p, 0, at) && PlainRun(p, at + 1, |p|)
    case DomainDot =>
      exists at :: 0 < at && at + 2 < |p| && p[at] == '@' && p[|p| - 1] == '.'
                   && PlainRun(p, 0, at) && PlainRun(p, at + 1, |p|)
    case Accept => Matches(p)
    case Reject => true
  }

  lemma {:induction false} RunExplains(p: string)
    ensures Explains(Run(p), p)
  {
    if p != [] {
      var p', c := p[..|p| - 1], p[|p| - 1];
      RunExplains(p');
      assert forall k :: 0 <= k < |p'| ==> p'[k] == p[k];
      match Run(p')
      case Start =>
      case Local =>
      case AtSign =>
        if Plain(c) {
          assert p[|p'| - 1] == '@' && PlainRun(p, 0, |p'| - 1);
        }
      case Domain =>
        var at :| 0 < at < |p'| - 1 && p'[at] == '@' && PlainRun(p', 0, at) && PlainRun(p', at + 1, |p'|);
        if Plain(c) {
          assert p[at] == '@' && PlainRun(p, 0, at) && PlainRun(p, at + 1, |p|);
        }
      case DomainDot =>
        var at :| 0 < at && at + 2 < |p'| && p'[at] == '@' && p'[|p'| - 1] == '.'
                  && PlainRun(p', 0, at) && PlainRun(p', at + 1, |p'|);
        if Plain(c) {
          assert SplitsAt(p, at, |p'| - 1);
        }
      case Accept =>
        var at, dot :| SplitsAt(p', at, dot);
        if Plain(c) {
          assert SplitsAt(p, at, dot);
        }
      case Reject =>
    }
  }

  /** Scanning a prefix of a matching address goes through the states in order. */
  lemma {:induction false} RunOnMatch(s: string, at: int, dot: int, n: nat)
    requires SplitsAt(s, at, dot) && n <= |s|
    ensures n == 0 ==> Run(s[..n]) == Start
    ensures 1 <= n <= at ==> Run(s[..n]) == Local
    ensures n == at + 1 ==> Run(s[..n]) == AtSign
    ensures at + 2 <= n <= dot ==> Run(s[..n]) in {Domain, DomainDot, Accept}
    ensures n == dot + 1 ==> Run(s[..n]) in {DomainDot, Accept}
    ensures dot + 2 <= n ==> Run(s[..n]) == Accept
  {
    if n > 0 {
      RunOnMatch(s, at, dot, n - 1);
      assert s[..n][..n - 1] == s[..n - 1];
      assert Run(s[..n]) == Step(Run(s[..n - 1]), s[n - 1]);
      if n - 1 != at && n - 1 != dot {
        assert Plain(s[n - 1]);
      }
    }
  }

  lemma IsValidEmailIffMatches(s: string)
    ensures IsValidEmail(s) <==> Matches(s)
  {
    RunExplains(s);
    if Matches(s) {
      var at, dot :| SplitsAt(s, at, dot);
      RunOnMatch(s, at, dot, |s|);
      assert s[..|s|] == s;
    }
  }

  lemma IsValidEmailIffDescribedShape(s: string)
    ensures IsValidEmail(s) <==> DescribedShape(s)
  {
    IsValidEmailIffMatches(s);
    MatchesIffDescribedShape(s);
  }
}
