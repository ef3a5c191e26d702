/**
 * The per-app match test of the app search and the list it selects.
 *
 * `StringUtils.cleanString`, `SharedPreferenceManager.getAppName` and the
 * regular expression built by `StringUtils.getFuzzyPattern` are not part of
 * this model: a `SearchEnv` carries them as functions, and every property here
 * holds whatever they are.
 */
module Search {
  import opened Wrappers
  import opened Text
  import opened Registry

  datatype SearchEnv = SearchEnv(
    /** `StringUtils.cleanString`: the normalised text, or null. */
    clean: string -> Option<string>,
    /** `getAppName(flattenedComponent, profile, label)`: the user's alias or the label. */
    appName: (string, int, string) -> string,
    /** `text.contains(getFuzzyPattern(query))` as fuzzy(query, text). */
    fuzzy: (string, string) -> bool)

  /** `text` has `query` at its start, comparing characters ignoring case. */
  predicate StartsWithIgnoreCase(text: string, query: string)
  {
    |query| <= |text| && forall j :: 0 <= j < |query| ==> CharEqualsIgnoreCase(text[j], query[j])
  }

  /** `text.contains(query, ignoreCase = true)`. */
  predicate ContainsIgnoreCase(text: string, query: string)
    ensures query == [] ==> ContainsIgnoreCase(text, query)
    ensures ContainsIgnoreCase(text, query) ==> |query| <= |text|
    decreases |text|
  {
    StartsWithIgnoreCase(text, query) || (text != [] && ContainsIgnoreCase(text[1..], query))
  }

  /** The window of `text` that begins at `k` equals `query`, character by character ignoring case. */
  predicate MatchesAt(text: string, query: string, k: nat)
    requires k + |query| <= |text|
  {
    forall j :: 0 <= j < |query| ==> CharEqualsIgnoreCase(text[k + j], query[j])
  }

  /** Containment ignoring case is some window of the text matching the query. */
  lemma {:induction false} ContainsIgnoreCaseWindow(text: string, query: string)
    ensures ContainsIgnoreCase(text, query)
        <==> exists k: nat :: k + |query| <= |text| && MatchesAt(text, query, k)
    decreases |text|
  {
    if text != [] {
      ContainsIgnoreCaseWindow(text[1..], query);
    }
    if ContainsIgnoreCase(text, query) {
      if StartsWithIgnoreCase(text, query) {
        assert MatchesAt(text, query, 0);
      } else {
        var k: nat :| k + |query| <= |text[1..]| && MatchesAt(text[1..], query, k);
        assert MatchesAt(text, query, k + 1) by {
          forall j | 0 <= j < |query| ensures CharEqualsIgnoreCase(text[k + 1 + j], query[j]) {
            assert text[1..][k + j] == text[k + 1 + j];
          }
        }
      }
    }
    if exists k: nat :: k + |query| <= |text| && MatchesAt(text, query, k) {
      var k: nat :| k + |query| <= |text| && MatchesAt(text, query, k);
      if k == 0 {
        assert StartsWithIgnoreCase(text, query);
      } else {
        assert MatchesAt(text[1..], query, k - 1) by {
          forall j | 0 <= j < |query| ensures CharEqualsIgnoreCase(text[1..][k - 1 + j], query[j]) {
            assert text[1..][k - 1 + j] == text[k + j];
          }
        }
      }
    }
  }

  /** The cleaned display name of an app, as the search loop computes it. */
  function CleanItemText(env: SearchEnv, app: App): Option<string>
  {
    env.clean(env.appName(FlattenToString(app.component), app.profile, app.activityLabel))
  }

  /**
   * The test inside `getFilteredApps`' loop: the cleaned name is non-null and
   * either the fuzzy pattern (built only when fuzzy search is on) is found in
   * it, or it contains the query ignoring case.
   */
  predicate IsMatch(env: SearchEnv, query: string, fuzzyOn: bool, app: App)
    ensures IsMatch(env, query, fuzzyOn, app) ==> CleanItemText(env, app).Some?
    ensures CleanItemText(env, app).Some? && query == [] ==> IsMatch(env, query, fuzzyOn, app)
    ensures !fuzzyOn ==> (IsMatch(env, query, fuzzyOn, app)
                          <==> CleanItemText(env, app).Some? && ContainsIgnoreCase(CleanItemText(env, app).value, query))
  {
    match CleanItemText(env, app)
    case None => false
    case Some(text) => (fuzzyOn && env.fuzzy(query, text)) || ContainsIgnoreCase(text, query)
  }

  /** The apps that match, in enumeration order. */
  function Filtered(env: SearchEnv, query: string, fuzzyOn: bool, apps: seq<App>): (r: seq<App>)
    ensures |r| <= |apps|
    ensures forall i :: 0 <= i < |r| ==> IsMatch(env, query, fuzzyOn, r[i])
  {
    if apps == [] then []
    else (if IsMatch(env, query, fuzzyOn, apps[0]) then [apps[0]] else [])
         + Filtered(env, query, fuzzyOn, apps[1..])
  }

  /** `xs` is `ys` with some elements left out, the rest in their order. */
  predicate IsSubsequence<T(==)>(xs: seq<T>, ys: seq<T>)
    decreases |ys|
  {
    if xs == [] then true
    else if ys == [] then false
    else (xs[0] == ys[0] && IsSubsequence(xs[1..], ys[1..])) || IsSubsequence(xs, ys[1..])
  }

  /** Leaving out the first element of the longer sequence keeps a subsequence a subsequence. */
  lemma SubsequenceSkip<T>(xs: seq<T>, ys: seq<T>)
    requires ys != [] && IsSubsequence(xs, ys[1..])
    ensures IsSubsequence(xs, ys)
  {
  }

  /** Visiting one more app appends it to the result exactly when it matches. */
  lemma {:induction false} FilteredSnoc(env: SearchEnv, query: string, fuzzyOn: bool, apps: seq<App>, app: App)
    ensures Filtered(env, query, fuzzyOn, apps + [app])
         == Filtered(env, query, fuzzyOn, apps) + (if IsMatch(env, query, fuzzyOn, app) then [app] else [])
  {
    if apps != [] {
      assert (apps + [app])[1..] == apps[1..] + [app];
      FilteredSnoc(env, query, fuzzyOn, apps[1..], app);
    }
  }

  /** An app is in the result exactly when it is enumerated and matches. */
  lemma {:induction false} FilteredMembers(env: SearchEnv, query: string, fuzzyOn: bool, apps: seq<App>, app: App)
    ensures app in Filtered(env, query, fuzzyOn, apps) <==> app in apps && IsMatch(env, query, fuzzyOn, app)
  {
    if apps != [] {
      FilteredMembers(env, query, fuzzyOn, apps[1..], app);
      assert apps == [apps[0]] + apps[1..];
    }
  }

  /** The result keeps the enumeration's order: it is a subsequence of it. */
  lemma {:induction false} FilteredIsSubsequence(env: SearchEnv, query: string, fuzzyOn: bool, apps: seq<App>)
    ensures IsSubsequence(Filtered(env, query, fuzzyOn, apps), apps)
  {
    if apps != [] {
      var rest := Filtered(env, query, fuzzyOn, apps[1..]);
      FilteredIsSubsequence(env, query, fuzzyOn, apps[1..]);
      if IsMatch(env, query, fuzzyOn, apps[0]) {
        assert ([apps[0]] + rest)[1..] == rest;
      } else {
        assert Filtered(env, query, fuzzyOn, apps) == rest;
        SubsequenceSkip(rest, apps);
      }
    }
  }

  /** Turning fuzzy search on never loses a match. */
  lemma FuzzyMatchIsWeaker(env: SearchEnv, query: string, app: App)
    ensures IsMatch(env, query, false, app) ==> IsMatch(env, query, true, app)
  {
  }

  /** Turning fuzzy search on can only add apps to the result, keeping the order. */
  lemma {:induction false} FuzzyOnlyAdds(env: SearchEnv, query: string, apps: seq<App>)
    ensures IsSubsequence(Filtered(env, query, false, apps), Filtered(env, query, true, apps))
  {
    if apps != [] {
      var exact := Filtered(env, query, false, apps[1..]);
      var fuzzy := Filtered(env, query, true, apps[1..]);
      FuzzyOnlyAdds(env, query, apps[1..]);
      if IsMatch(env, query, false, apps[0]) {
        assert ([apps[0]] + exact)[1..] == exact;
        assert ([apps[0]] + fuzzy)[1..] == fuzzy;
      } else if IsMatch(env, query, true, apps[0]) {
        assert Filtered(env, query, false, apps) == exact;
        assert ([apps[0]] + fuzzy)[1..] == fuzzy;
        SubsequenceSkip(exact, [apps[0]] + fuzzy);
      } else {
        assert Filtered(env, query, false, apps) == exact;
        assert Filtered(env, query, true, apps) == fuzzy;
      }
    }
  }
  /** A query longer than the text is never contained in it. */
  lemma {:induction false} LongerQueryNotContained(text: string, query: string)
    requires |text| < |query|
    ensures !ContainsIgnoreCase(text, query)
  {
    if text != [] {
      LongerQueryNotContained(text[1..], query);
    }
  }

  lemma ExampleLabels()
    ensures ContainsIgnoreCase("Calculator", "cal") && ContainsIgnoreCase("Calendar", "cal")
    ensures ContainsIgnoreCase("Calculator", "Calcu") && !ContainsIgnoreCase("Calendar", "Calcu")
  {
    assert StartsWithIgnoreCase("Calculator", "cal");
    assert StartsWithIgnoreCase("Calendar", "cal");
    assert StartsWithIgnoreCase("Calculator", "Calcu");
    var t := "Calendar";
    assert !CharEqualsIgnoreCase(t[3], 'c');
    assert !CharEqualsIgnoreCase(t[1], 'C');
    assert !CharEqualsIgnoreCase(t[2], 'C');
    assert !CharEqualsIgnoreCase(t[3], 'C');
    assert t[1..][1..][1..][1..] == t[4..];
    LongerQueryNotContained(t[4..], "Calcu");
  }

  /** Names cleaned to themselves, no aliases: an app matches by its label alone. */
  lemma PlainLabelMatch(env: SearchEnv, query: string, app: App)
    requires forall s :: env.clean(s) == Some(s)
    requires forall c, p, l :: env.appName(c, p, l) == l
    ensures IsMatch(env, query, false, app) <==> ContainsIgnoreCase(app.activityLabel, query)
  {
    assert CleanItemText(env, app) == Some(app.activityLabel);
  }

  /** The result for a two-app enumeration, position by position. */
  lemma FilteredPair(env: SearchEnv, query: string, fuzzyOn: bool, a: App, b: App)
    ensures Filtered(env, query, fuzzyOn, [a, b])
         == (if IsMatch(env, query, fuzzyOn, a) then [a] else [])
            + (if IsMatch(env, query, fuzzyOn, b) then [b] else [])
  {
    assert [] + [a] == [a];
    assert [a] + [b] == [a, b];
    FilteredSnoc(env, query, fuzzyOn, [], a);
    FilteredSnoc(env, query, fuzzyOn, [a], b);
  }

  /** Which of the two example labels match which query. */
  lemma ExampleMatches(env: SearchEnv, calculator: App, calendar: App)
    requires forall s :: env.clean(s) == Some(s)
    requires forall c, p, l :: env.appName(c, p, l) == l
    requires calculator.activityLabel == "Calculator" && calendar.activityLabel == "Calendar"
    ensures IsMatch(env, "cal", false, calculator) && IsMatch(env, "cal", false, calendar)
    ensures IsMatch(env, "Calcu", false, calculator) && !IsMatch(env, "Calcu", false, calendar)
  {
    ExampleLabels();
    PlainLabelMatch(env, "cal", calculator);
    PlainLabelMatch(env, "cal", calendar);
    PlainLabelMatch(env, "Calcu", calculator);
    PlainLabelMatch(env, "Calcu", calendar);
  }

  /**
   * With names cleaned to themselves and no aliases, "cal" selects both
   * "Calculator" and "Calendar", in enumeration order, ignoring case; "Calcu"
   * selects only "Calculator".
   */
  lemma CalendarExample(env: SearchEnv, calculator: App, calendar: App)
    requires forall s :: env.clean(s) == Some(s)
    requires forall c, p, l :: env.appName(c, p, l) == l
    requires calculator.activityLabel == "Calculator" && calendar.activityLabel == "Calendar"
    ensures Filtered(env, "cal", false, [calculator, calendar]) == [calculator, calendar]
    ensures Filtered(env, "Calcu", false, [calculator, calendar]) == [calculator]
  {
    ExampleMatches(env, calculator, calendar);
    FilteredPair(env, "cal", false, calculator, calendar);
    FilteredPair(env, "Calcu", false, calculator, calendar);
  }
}
