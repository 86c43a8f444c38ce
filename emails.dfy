/**
 * The post-match filter of `find_emails_on_page`. The regular expression that
 * produces the candidates (`re.findall`) is not modelled: the candidates are
 * an input.
 */
module Emails {
  import opened Strings

  /** Image file extensions whose presence marks a match as a file name, not an address. */
  const ImageExtensions: seq<string> := [".png", ".jpg", ".jpeg", ".gif", ".webp", ".svg", ".bmp", ".tiff"]

  /** Placeholder addresses and domains that sites show as examples. */
  const FalsePositivePatterns: seq<string> := ["example.com", "yourdomain.com", "email@domain.com", "sentry.io"]

  const MaxEmailLength := 255

  /** `any(p in s for p in patterns)` */
  predicate ContainsAny(s: string, patterns: seq<string>) {
    exists k :: 0 <= k < |patterns| && Contains(s, patterns[k])
  }

  /** The tests of app.py:52-57 on a lower-cased candidate: true when it is kept. */
  predicate PassesFilter(e: string) {
    && !ContainsAny(e, ImageExtensions)
    && !ContainsAny(e, FalsePositivePatterns)
    && !(|e| > MaxEmailLength || ' ' in e || multiset(e)['@'] != 1)
    && var parts := Split(e, '@');
       && |parts| == 2
       && '.' in parts[1]
       && var labels := Split(parts[1], '.');
          && |labels[|labels| - 1]| >= 2
          && !(StartsWith(e, "'") || EndsWith(e, "'"))
  }

  /** The set `find_emails_on_page` returns when the regular expression matched `candidates`. */
  function Filtered(candidates: set<string>): set<string> {
    set c | c in candidates && PassesFilter(Lower(c)) :: Lower(c)
  }

  // ------------------------------------------- the same conditions, by index

  /** at is the only position of `@` in e. */
  predicate OnlyAtSign(e: string, at: int) {
    0 <= at < |e| && e[at] == '@' && forall j :: 0 <= j < |e| && j != at ==> e[j] != '@'
  }

  /** p is the position of the last `.` in e. */
  predicate LastDot(e: string, p: int) {
    0 <= p < |e| && e[p] == '.' && forall j :: p < j < |e| ==> e[j] != '.'
  }

  /** No pattern of the list occurs anywhere in e. */
  ghost predicate AvoidsAll(e: string, patterns: seq<string>) {
    forall k, i :: 0 <= k < |patterns| ==> !OccursAt(e, patterns[k], i)
  }

  /**
   * An address as the filter means it: no image extension and no placeholder
   * anywhere, at most 255 characters, no space, exactly one `@`, a last `.`
   * after the `@` followed by at least two characters, and no `'` at either end.
   */
  ghost predicate IsPlausibleEmail(e: string) {
    && AvoidsAll(e, ImageExtensions)
    && AvoidsAll(e, FalsePositivePatterns)
    && |e| <= MaxEmailLength
    && (forall i :: 0 <= i < |e| ==> e[i] != ' ')
    && (exists at :: OnlyAtSign(e, at) && exists p :: LastDot(e, p) && at < p < |e| - 2)
    && (e != [] ==> e[0] != '\'' && e[|e| - 1] != '\'')
  }

  // ------------------------------------------------------------ the proofs

  lemma ContainsAnyAvoids(e: string, patterns: seq<string>)
    ensures !ContainsAny(e, patterns) <==> AvoidsAll(e, patterns)
  {
    forall k | 0 <= k < |patterns| {
      ContainsAt(e, patterns[k]);
    }
  }

  lemma {:induction false} CountAtLeastTwo(e: string, c: char, i: int, j: int)
    requires 0 <= i < j < |e| && e[i] == c && e[j] == c
    ensures multiset(e)[c] >= 2
  {
    assert e == e[..j] + e[j..];
    assert e[..j][i] == c;
    assert e[j..][0] == c;
    assert multiset(e) == multiset(e[..j]) + multiset(e[j..]);
  }

  lemma {:induction false} CountOne(e: string, c: char, at: int)
    requires 0 <= at < |e| && e[at] == c
    requires forall j :: 0 <= j < |e| && j != at ==> e[j] != c
    ensures multiset(e)[c] == 1
  {
    assert e == e[..at] + [c] + e[at + 1..];
    assert c !in e[..at];
    assert c !in e[at + 1..];
    assert multiset(e) == multiset(e[..at]) + multiset{c} + multiset(e[at + 1..]);
  }

  /** Exactly one `@` by count is exactly one `@` by position. */
  lemma CountOneIffOnly(e: string)
    ensures multiset(e)['@'] == 1 <==> exists at :: OnlyAtSign(e, at)
  {
    if multiset(e)['@'] == 1 {
      assert '@' in e;
      var at :| 0 <= at < |e| && e[at] == '@';
      forall j | 0 <= j < |e| && j != at
        ensures e[j] != '@'
      {
        if e[j] == '@' {
          if j < at {
            CountAtLeastTwo(e, '@', j, at);
          } else {
            CountAtLeastTwo(e, '@', at, j);
          }
        }
      }
      assert OnlyAtSign(e, at);
    }
    if exists at :: OnlyAtSign(e, at) {
      var at :| OnlyAtSign(e, at);
      CountOne(e, '@', at);
    }
  }

  /** Splitting at the only `@` gives the text before it and the text after it. */
  lemma SplitAtOnly(e: string, at: int)
    requires OnlyAtSign(e, at)
    ensures Split(e, '@') == [e[..at], e[at + 1..]]
  {
    CountOne(e, '@', at);
    SplitPieces(e, '@');
    JoinSplit(e, '@');
    var parts := Split(e, '@');
    assert |parts| == 2;
    assert e == parts[0] + ['@'] + parts[1];
    var n := |parts[0]|;
    assert e[n] == '@';
    assert '@' !in parts[0] && '@' !in parts[1];
    assert n == at;
    assert parts[0] == e[..at];
    assert parts[1] == e[at + 1..];
  }

  /** The last `.`-separated label of the text after position at, placed within e. */
  lemma LastLabel(e: string, at: int)
    requires 0 <= at < |e|
    ensures var d := e[at + 1..]; var labels := Split(d, '.'); var r := labels[|labels| - 1];
      && |r| <= |d|
      && ('.' in d <==> |r| < |d|)
      && (forall j :: |e| - |r| <= j < |e| ==> e[j] != '.')
      && (|r| < |d| ==> e[|e| - |r| - 1] == '.')
  {
    var d := e[at + 1..];
    var labels := Split(d, '.');
    var r := labels[|labels| - 1];
    SplitLast(d, '.');
    SplitLastIsWhole(d, '.');
    TailOfSuffix(e, at, r);
  }

  /** A suffix of the text after position at that holds no `.` is a suffix of e without `.`; the character before it sits in e too. */
  lemma TailOfSuffix(e: string, at: int, r: string)
    requires 0 <= at < |e| && '.' !in r && EndsWith(e[at + 1..], r)
    ensures forall j :: |e| - |r| <= j < |e| ==> e[j] != '.'
    ensures |r| < |e| - at - 1 ==> e[|e| - |r| - 1] == e[at + 1..][|e| - at - 1 - |r| - 1]
  {
    var d := e[at + 1..];
    forall j | |e| - |r| <= j < |e|
      ensures e[j] != '.'
    {
      assert e[j] == d[j - at - 1] == r[j - at - 1 - (|d| - |r|)];
    }
  }

  lemma DomainTestSound(e: string, at: int)
    requires OnlyAtSign(e, at)
    requires var d := e[at + 1..]; var labels := Split(d, '.'); '.' in d && |labels[|labels| - 1]| >= 2
    ensures exists p :: LastDot(e, p) && at < p < |e| - 2
  {
    var labels := Split(e[at + 1..], '.');
    var r := labels[|labels| - 1];
    LastLabel(e, at);
    var p := |e| - |r| - 1;
    assert LastDot(e, p);
  }

  lemma DomainTestComplete(e: string, at: int, p: int)
    requires OnlyAtSign(e, at)
    requires LastDot(e, p) && at < p < |e| - 2
    ensures var d := e[at + 1..]; var labels := Split(d, '.'); '.' in d && |labels[|labels| - 1]| >= 2
  {
    var d := e[at + 1..];
    var labels := Split(d, '.');
    var r := labels[|labels| - 1];
    LastLabel(e, at);
    assert d[p - at - 1] == e[p] == '.';
    assert p < |e| - |r|;
    assert e[|e| - |r| - 1] == '.';
  }

  /** The domain test of app.py:56 is "a last dot after the `@`, with at least two characters after it". */
  lemma DomainTest(e: string, at: int)
    requires OnlyAtSign(e, at)
    ensures (var d := e[at + 1..]; var labels := Split(d, '.');
             '.' in d && |labels[|labels| - 1]| >= 2)
        <==> exists p :: LastDot(e, p) && at < p < |e| - 2
  {
    var d := e[at + 1..];
    var labels := Split(d, '.');
    if '.' in d && |labels[|labels| - 1]| >= 2 {
      DomainTestSound(e, at);
    }
    if exists p :: LastDot(e, p) && at < p < |e| - 2 {
      var p :| LastDot(e, p) && at < p < |e| - 2;
      DomainTestComplete(e, at, p);
    }
  }

  /** The filter keeps a lower-cased candidate exactly when it is a plausible address. */
  lemma PassesFilterIffPlausible(e: string)
    ensures PassesFilter(e) <==> IsPlausibleEmail(e)
  {
    ContainsAnyAvoids(e, ImageExtensions);
    ContainsAnyAvoids(e, FalsePositivePatterns);
    CountOneIffOnly(e);
    if exists at :: OnlyAtSign(e, at) {
      var at :| OnlyAtSign(e, at);
      SplitAtOnly(e, at);
      DomainTest(e, at);
      forall at' | OnlyAtSign(e, at')
        ensures at' == at
      {
      }
    }
  }

  /** `str.lower()` leaves no upper-case ASCII letter. */
  lemma LowerIsLower(s: string)
    ensures IsLower(Lower(s))
  {
  }

  /** Everything the filter keeps is lower case and plausible, and every plausible lower-cased candidate is kept. */
  lemma FilteredPlausible(candidates: set<string>)
    ensures forall e :: e in Filtered(candidates) ==> IsLower(e) && IsPlausibleEmail(e)
    ensures forall c :: c in candidates && IsPlausibleEmail(Lower(c)) ==> Lower(c) in Filtered(candidates)
  {
    forall e | e in Filtered(candidates)
      ensures IsLower(e) && IsPlausibleEmail(e)
    {
      var c :| c in candidates && PassesFilter(Lower(c)) && e == Lower(c);
      LowerIsLower(c);
      PassesFilterIffPlausible(e);
    }
    forall c | c in candidates && IsPlausibleEmail(Lower(c))
      ensures Lower(c) in Filtered(candidates)
    {
      PassesFilterIffPlausible(Lower(c));
    }
  }

  /** Filtering one more candidate adds its lower case exactly when that passes. */
  lemma FilteredInsert(candidates: set<string>, c: string)
    ensures Filtered(candidates + {c}) == Filtered(candidates) + (if PassesFilter(Lower(c)) then {Lower(c)} else {})
  {
  }

  /** The tests app.py:51-57 apply to one match, in their order: whether its lower case is kept. */
  method CheckCandidate(email: string) returns (keep: bool, emailLower: string)
    ensures emailLower == Lower(email)
    ensures keep <==> IsPlausibleEmail(emailLower)
  {
    emailLower := Lower(email);
    keep := false;
    if ContainsAny(emailLower, ImageExtensions) {
    } else if ContainsAny(emailLower, FalsePositivePatterns) {
    } else if |emailLower| > MaxEmailLength || ' ' in emailLower || multiset(emailLower)['@'] != 1 {
    } else {
      var parts := Split(emailLower, '@');
      if |parts| == 2 && '.' in parts[1] && |Split(parts[1], '.')[|Split(parts[1], '.')| - 1]| >= 2 {
        if !(StartsWith(emailLower, "'") || EndsWith(emailLower, "'")) {
          keep := true;
        }
      }
    }
    assert keep == PassesFilter(emailLower);
    PassesFilterIffPlausible(emailLower);
  }

  /**
   * `find_emails_on_page` (app.py:44-59) after the regular expression: each
   * distinct match is lower-cased and kept when it passes every test
   * (`FilteredPlausible` says what that set holds).
   */
  method FindEmailsOnPage(matches: seq<string>) returns (filtered: set<string>)
    ensures filtered == Filtered(set c | c in matches)
  {
    var emailsFound := set c | c in matches;
    filtered := {};
    var remaining := emailsFound;
    while remaining != {}
      invariant remaining <= emailsFound
      invariant filtered == Filtered(emailsFound - remaining)
      decreases |remaining|
    {
      var email :| email in remaining;
      var keep, emailLower := CheckCandidate(email);
      PassesFilterIffPlausible(emailLower);
      if keep {
        filtered := filtered + {emailLower};
      }
      assert emailsFound - (remaining - {email}) == (emailsFound - remaining) + {email};
      FilteredInsert(emailsFound - remaining, email);
      remaining := remaining - {email};
    }
  }
}
