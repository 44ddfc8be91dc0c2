/** The progress rule of the deployment view (components/Distribution.tsx):
    every log message handed to the stream callback is searched for five
    keywords in turn, and each keyword found sets the progress bar to its
    value, so the last keyword found wins. Matching is JavaScript `includes`:
    case-sensitive substring search. The module also replays the two canned
    build logs through the rule. */
module Progress {
  import opened Types
  import opened Strings
  import LinkZService
  import MockServer

  /** One keyword test of the stream callback: a message containing
      `keyword` sets the progress to `progress`. */
  datatype Rule = Rule(keyword: string, progress: int)

  /** The tests in the order the callback runs them. */
  const PROGRESS_RULES: seq<Rule> := [
    Rule("dependencies", 30), Rule("Configuring", 50), Rule("Building", 70),
    Rule("Gradle", 80), Rule("Success", 100)
  ]

  /** The tests run one after the other, each match overwriting the last. */
  function ApplyRules(p: int, message: string, rules: seq<Rule>): int
    decreases |rules|
  {
    if rules == [] then p
    else ApplyRules(if Contains(message, rules[0].keyword) then rules[0].progress else p, message, rules[1..])
  }

  /** The progress of the last rule whose keyword occurs in the message. */
  function LastMatch(message: string, rules: seq<Rule>): Option<int>
    decreases |rules|
  {
    if rules == [] then None
    else if Contains(message, rules[|rules| - 1].keyword) then Some(rules[|rules| - 1].progress)
    else LastMatch(message, rules[..|rules| - 1])
  }

  lemma {:induction false} ApplyRulesSnoc(p: int, message: string, rules: seq<Rule>, r: Rule)
    ensures ApplyRules(p, message, rules + [r])
         == if Contains(message, r.keyword) then r.progress else ApplyRules(p, message, rules)
    decreases |rules|
  {
    if rules == [] {
      assert [] + [r] == [r];
    } else {
      assert (rules + [r])[1..] == rules[1..] + [r];
      ApplyRulesSnoc(if Contains(message, rules[0].keyword) then rules[0].progress else p, message, rules[1..], r);
    }
  }

  /** Running the tests in order is "the last match wins, no match keeps
      the old value". */
  lemma {:induction false} ApplyRulesIsLastMatch(p: int, message: string, rules: seq<Rule>)
    ensures ApplyRules(p, message, rules) == match LastMatch(message, rules)
                                               case None => p
                                               case Some(v) => v
    decreases |rules|
  {
    if rules != [] {
      var init, last := rules[..|rules| - 1], rules[|rules| - 1];
      assert rules == init + [last];
      ApplyRulesSnoc(p, message, init, last);
      ApplyRulesIsLastMatch(p, message, init);
    }
  }

  /** The progress after the stream callback has seen `message`. */
  function NextProgress(p: int, message: string): int {
    ApplyRules(p, message, PROGRESS_RULES)
  }

  /** What a message does to the progress bar, the keywords looked for from
      the last test back: `Some(v)` for the value of the last keyword present,
      `None` when the message holds none of them. */
  function Effect(message: string): Option<int> {
    if Contains(message, "Success") then Some(100)
    else if Contains(message, "Gradle") then Some(80)
    else if Contains(message, "Building") then Some(70)
    else if Contains(message, "Configuring") then Some(50)
    else if Contains(message, "dependencies") then Some(30)
    else None
  }

  /** The callback's five sequential tests amount to the last-match rule:
      a message sets the value of its last keyword and a message without a
      keyword leaves the progress alone. */
  lemma ProgressRule(p: int, message: string)
    ensures NextProgress(p, message) == match Effect(message)
                                          case None => p
                                          case Some(v) => v
  {
    ApplyRulesIsLastMatch(p, message, PROGRESS_RULES);
    assert PROGRESS_RULES[..4] == [Rule("dependencies", 30), Rule("Configuring", 50), Rule("Building", 70), Rule("Gradle", 80)];
    assert PROGRESS_RULES[..4][..3] == [Rule("dependencies", 30), Rule("Configuring", 50), Rule("Building", 70)];
    assert PROGRESS_RULES[..4][..3][..2] == [Rule("dependencies", 30), Rule("Configuring", 50)];
    assert PROGRESS_RULES[..4][..3][..2][..1] == [Rule("dependencies", 30)];
  }

  /** Matching is case-sensitive: the capitalised "Dependencies" does not
      move the bar, while the lower-case word sets it to 30. */
  lemma CaseSensitive(p: int)
    ensures NextProgress(p, "Dependencies") == p
    ensures NextProgress(p, "dependencies") == 30
  {
    CapitalisedDependencies("Dependencies");
    ProgressRule(p, "Dependencies");
    var lower := "dependencies";
    KeywordPiece(lower);
    ContainsSelf(lower);
    EffectOf(lower, 30);
    ProgressRule(p, lower);
  }

  lemma CapitalisedDependencies(upper: string)
    requires upper == "Dependencies"
    ensures Effect(upper) == None
  {
    assert forall k :: 0 <= k < |upper| ==> upper[k] != 'S' && upper[k] != 'G' && upper[k] != 'B' && upper[k] != 'C';
    Lacks(upper, "Success", 0);
    Lacks(upper, "Gradle", 0);
    Lacks(upper, "Building", 0);
    Lacks(upper, "Configuring", 0);
    assert !MatchAt(upper, "dependencies", 0) by {
      assert upper[0] != "dependencies"[0];
    }
    EffectOf(upper, 0);
  }

  /** The values the progress bar can hold. */
  predicate IsProgressValue(p: int) {
    p == 0 || p == 5 || p == 15 || p == 30 || p == 50 || p == 70 || p == 80 || p == 100
  }

  lemma NextProgressIsValue(p: int, message: string)
    requires IsProgressValue(p)
    ensures IsProgressValue(NextProgress(p, message))
    ensures NextProgress(p, message) <= 100
  {
    ProgressRule(p, message);
  }

  /** The progress after each message of a run, starting from `p`. */
  function Replay(p: int, messages: seq<string>): (trace: seq<int>)
    ensures |trace| == |messages|
    decreases |messages|
  {
    if messages == [] then []
    else [NextProgress(p, messages[0])] + Replay(NextProgress(p, messages[0]), messages[1..])
  }

  /** A replay is a running scan: each value is the rule applied to the one
      before it (or to the start value) and the message at that position. */
  lemma {:induction false} ReplayStep(p: int, messages: seq<string>, k: nat)
    requires k < |messages|
    ensures Replay(p, messages)[k] == NextProgress(if k == 0 then p else Replay(p, messages)[k - 1], messages[k])
    decreases k
  {
    if k > 0 {
      var q := NextProgress(p, messages[0]);
      ReplayStep(q, messages[1..], k - 1);
      if k > 1 {
        assert Replay(p, messages)[k - 1] == Replay(q, messages[1..])[k - 2];
      }
    }
  }

  /** What each message of a run does to the bar. */
  function Effects(messages: seq<string>): (effects: seq<Option<int>>)
    ensures |effects| == |messages|
    ensures forall k :: 0 <= k < |messages| ==> effects[k] == Effect(messages[k])
  {
    if messages == [] then [] else [Effect(messages[0])] + Effects(messages[1..])
  }

  /** The bar after each step when the steps do `effects`: the value a step
      carries, or the value before it. */
  function Track(p: int, effects: seq<Option<int>>): (trace: seq<int>)
    ensures |trace| == |effects|
    decreases |effects|
  {
    if effects == [] then []
    else
      var q := match effects[0] case None => p case Some(v) => v;
      [q] + Track(q, effects[1..])
  }

  /** A run depends on its messages only through what each does to the bar. */
  lemma {:induction false} ReplayIsTrack(p: int, messages: seq<string>)
    ensures Replay(p, messages) == Track(p, Effects(messages))
    decreases |messages|
  {
    if messages != [] {
      ProgressRule(p, messages[0]);
      ReplayIsTrack(NextProgress(p, messages[0]), messages[1..]);
      assert Effects(messages)[1..] == Effects(messages[1..]);
    }
  }

  /** Each step of a track is the step's own value, or the value before it
      (the start value for the first step). */
  lemma {:induction false} TrackAt(p: int, effects: seq<Option<int>>, k: nat)
    requires k < |effects|
    ensures Track(p, effects)[k] == match effects[k]
                                     case None => if k == 0 then p else Track(p, effects)[k - 1]
                                     case Some(v) => v
    decreases k
  {
    if k > 0 {
      var q := match effects[0] case None => p case Some(v) => v;
      TrackAt(q, effects[1..], k - 1);
      if k > 1 {
        assert Track(p, effects)[k - 1] == Track(q, effects[1..])[k - 2];
      }
    }
  }

  /** Through a stretch of steps that carry no value, the track holds the
      value it had at the start of the stretch. */
  lemma {:induction false} TrackQuiet(p: int, effects: seq<Option<int>>, lo: nat, hi: nat)
    requires lo < hi <= |effects|
    requires forall i :: lo < i < hi ==> effects[i] == None
    ensures forall k :: lo <= k < hi ==> Track(p, effects)[k] == Track(p, effects)[lo]
    decreases hi
  {
    if lo + 1 < hi {
      TrackQuiet(p, effects, lo, hi - 1);
      TrackAt(p, effects, hi - 1);
    }
  }

  /** A stretch that opens with a step worth `v` (or, at the very start, with
      a step worth nothing and the track starting at `v`), followed by steps
      worth nothing, reads `v` throughout. */
  lemma TrackSegment(p: int, effects: seq<Option<int>>, lo: nat, hi: nat, v: int)
    requires lo < hi <= |effects|
    requires effects[lo] == Some(v) || (lo == 0 && p == v && effects[0] == None)
    requires forall i :: lo < i < hi ==> effects[i] == None
    ensures forall k :: lo <= k < hi ==> Track(p, effects)[k] == v
  {
    TrackAt(p, effects, lo);
    TrackQuiet(p, effects, lo, hi);
  }

  predicate NonDecreasing(trace: seq<int>) {
    forall k :: 0 < k < |trace| ==> trace[k - 1] <= trace[k]
  }

  // ---------------------------------------------------------------------
  // The canned log lines one by one: which keyword, if any, each carries.
  // The longer messages are cut into pieces at points where no keyword can
  // straddle the cut, so that each piece can be checked on its own.

  /** `s` holds no keyword whose value exceeds `v`; with `v == 0`, no keyword at all. */
  predicate AbsentAbove(s: string, v: int) {
    && (v < 100 ==> !Contains(s, "Success"))
    && (v < 80 ==> !Contains(s, "Gradle"))
    && (v < 70 ==> !Contains(s, "Building"))
    && (v < 50 ==> !Contains(s, "Configuring"))
    && (v < 30 ==> !Contains(s, "dependencies"))
  }

  /** Neither piece holds a keyword above `v`, and no keyword can straddle the cut. */
  lemma AbsentAboveConcat(a: string, b: string, v: int)
    requires |a| > 0 && |b| > 0
    requires a[|a| - 1] !in "Success" || b[0] !in "Success"
    requires a[|a| - 1] !in "Gradle" || b[0] !in "Gradle"
    requires a[|a| - 1] !in "Building" || b[0] !in "Building"
    requires a[|a| - 1] !in "Configuring" || b[0] !in "Configuring"
    requires a[|a| - 1] !in "dependencies" || b[0] !in "dependencies"
    requires AbsentAbove(a, v) && AbsentAbove(b, v)
    ensures AbsentAbove(a + b, v)
  {
    if v < 100 { AbsentFromBoth(a, b, "Success"); }
    if v < 80 { AbsentFromBoth(a, b, "Gradle"); }
    if v < 70 { AbsentFromBoth(a, b, "Building"); }
    if v < 50 { AbsentFromBoth(a, b, "Configuring"); }
    if v < 30 { AbsentFromBoth(a, b, "dependencies"); }
  }

  /** A message holding the keyword worth `v` and none worth more sets `v`;
      one holding no keyword leaves the bar alone. */
  lemma EffectOf(s: string, v: int)
    requires v in {0, 30, 50, 70, 80, 100} && AbsentAbove(s, v)
    requires v == 30 ==> Contains(s, "dependencies")
    requires v == 50 ==> Contains(s, "Configuring")
    requires v == 70 ==> Contains(s, "Building")
    requires v == 80 ==> Contains(s, "Gradle")
    requires v == 100 ==> Contains(s, "Success")
    ensures Effect(s) == if v == 0 then None else Some(v)
  {
  }

  /** Each keyword, taken alone, holds no keyword worth more than itself. */
  lemma KeywordPiece(c: string)
    requires c == "dependencies" || c == "Configuring" || c == "Building" || c == "Gradle" || c == "Success"
    ensures (c == "dependencies" ==> AbsentAbove(c, 30)) && (c == "Configuring" ==> AbsentAbove(c, 50)) && (c == "Building" ==> AbsentAbove(c, 70)) && (c == "Gradle" ==> AbsentAbove(c, 80)) && (c == "Success" ==> AbsentAbove(c, 100))
  {
    if c == "dependencies" {
      assert forall k :: 0 <= k < |c| ==> c[k] != 'u' && c[k] != 'G';
      Lacks(c, "Configuring", 6);
      Lacks(c, "Building", 1);
      Lacks(c, "Gradle", 0);
      Lacks(c, "Success", 1);
    } else if c == "Configuring" {
      assert forall k :: 0 <= k < |c| ==> c[k] != 'd' && c[k] != 'S';
      Lacks(c, "Building", 4);
      Lacks(c, "Gradle", 3);
      Lacks(c, "Success", 0);
    } else if c == "Building" {
      assert forall k :: 0 <= k < |c| ==> c[k] != 'e';
      Lacks(c, "Gradle", 5);
      Lacks(c, "Success", 4);
    } else if c == "Gradle" {
      TooShort(c, "Success");
    }
  }

  lemma CornerTopPiece(c: string)
    requires c == "╔"
    ensures AbsentAbove(c, 0)
  {
    TooShort(c, "dependencies");
    TooShort(c, "Configuring");
    TooShort(c, "Building");
    TooShort(c, "Gradle");
    TooShort(c, "Success");
  }

  lemma RulePiece(c: string)
    requires c == "════════════════════════════════"
    ensures AbsentAbove(c, 0)
  {
    assert forall k :: 0 <= k < |c| ==> c[k] != 'd' && c[k] != 'u';
    Lacks(c, "dependencies", 0);
    Lacks(c, "Configuring", 6);
    Lacks(c, "Building", 4);
    Lacks(c, "Gradle", 3);
    Lacks(c, "Success", 1);
  }

  lemma RuleTopEndPiece(c: string)
    requires c == "═══════════════════════════════╗"
    ensures AbsentAbove(c, 0)
  {
    assert forall k :: 0 <= k < |c| ==> c[k] != 'd' && c[k] != 'u';
    Lacks(c, "dependencies", 0);
    Lacks(c, "Configuring", 6);
    Lacks(c, "Building", 4);
    Lacks(c, "Gradle", 3);
    Lacks(c, "Success", 1);
  }

  lemma FrameLeftPiece(c: string)
    requires c == "║   "
    ensures AbsentAbove(c, 0)
  {
    TooShort(c, "dependencies");
    TooShort(c, "Configuring");
    TooShort(c, "Building");
    TooShort(c, "Gradle");
    TooShort(c, "Success");
  }

  lemma LinkZIAEDMobilePiece(c: string)
    requires c == "LinkZ IAED Mobile - APK Builder "
    ensures AbsentAbove(c, 0)
  {
    assert forall k :: 0 <= k < |c| ==> c[k] != 'c' && c[k] != 'g' && c[k] != 'G';
    Lacks(c, "dependencies", 8);
    Lacks(c, "Configuring", 5);
    Lacks(c, "Building", 7);
    Lacks(c, "Gradle", 0);
    Lacks(c, "Success", 2);
  }

  lemma VersionPiece(c: string)
    requires c == "v2.0.1                      ║"
    ensures AbsentAbove(c, 0)
  {
    assert forall k :: 0 <= k < |c| ==> c[k] != 'd' && c[k] != 'u';
    Lacks(c, "dependencies", 0);
    Lacks(c, "Configuring", 6);
    Lacks(c, "Building", 4);
    Lacks(c, "Gradle", 3);
    Lacks(c, "Success", 1);
  }

  lemma CornerBottomPiece(c: string)
    requires c == "╚"
    ensures AbsentAbove(c, 0)
  {
    TooShort(c, "dependencies");
    TooShort(c, "Configuring");
    TooShort(c, "Building");
    TooShort(c, "Gradle");
    TooShort(c, "Success");
  }

  lemma RuleBottomEndPiece(c: string)
    requires c == "═══════════════════════════════╝"
    ensures AbsentAbove(c, 0)
  {
    assert forall k :: 0 <= k < |c| ==> c[k] != 'd' && c[k] != 'u';
    Lacks(c, "dependencies", 0);
    Lacks(c, "Configuring", 6);
    Lacks(c, "Building", 4);
    Lacks(c, "Gradle", 3);
    Lacks(c, "Success", 1);
  }

  lemma ConnectionToLocalhostPiece(c: string)
    requires c == "Connection to Localhost failed. "
    ensures AbsentAbove(c, 0)
  {
    assert forall k :: 0 <= k < |c| ==> c[k] != 'u' && c[k] != 'G' && c[k] != 'p';
    Lacks(c, "dependencies", 2);
    Lacks(c, "Configuring", 6);
    Lacks(c, "Building", 1);
    Lacks(c, "Gradle", 0);
    Lacks(c, "Success", 1);
  }

  lemma RunningInSimulationPiece(c: string)
    requires c == "Running in Simulation Mode."
    ensures AbsentAbove(c, 0)
  {
    assert forall k :: 0 <= k < |c| ==> c[k] != 'c' && c[k] != 'r' && c[k] != 'B';
    Lacks(c, "dependencies", 8);
    Lacks(c, "Configuring", 7);
    Lacks(c, "Building", 0);
    Lacks(c, "Gradle", 1);
    Lacks(c, "Success", 2);
  }

  lemma InstallingPiece(c: string)
    requires c == "# Installing "
    ensures AbsentAbove(c, 0)
  {
    assert forall k :: 0 <= k < |c| ==> c[k] != 'd' && c[k] != 'u';
    Lacks(c, "dependencies", 0);
    Lacks(c, "Configuring", 6);
    Lacks(c, "Building", 4);
    Lacks(c, "Gradle", 3);
    Lacks(c, "Success", 1);
  }

  lemma SymbolsPiece(c: string)
    requires c == "..."
    ensures AbsentAbove(c, 0)
  {
    TooShort(c, "dependencies");
    TooShort(c, "Configuring");
    TooShort(c, "Building");
    TooShort(c, "Gradle");
    TooShort(c, "Success");
  }

  lemma DependenciesHeadPiece(c: string)
    requires c == "✅ D"
    ensures AbsentAbove(c, 0)
  {
    TooShort(c, "dependencies");
    TooShort(c, "Configuring");
    TooShort(c, "Building");
    TooShort(c, "Gradle");
    TooShort(c, "Success");
  }

  lemma DependenciesTailPiece(c: string)
    requires c == "ependencies"
    ensures AbsentAbove(c, 0)
  {
    assert forall k :: 0 <= k < |c| ==> c[k] != 'u' && c[k] != 'G';
    TooShort(c, "dependencies");
    Lacks(c, "Configuring", 6);
    Lacks(c, "Building", 1);
    Lacks(c, "Gradle", 0);
    Lacks(c, "Success", 1);
  }

  lemma InstalledPiece(c: string)
    requires c == " installed"
    ensures AbsentAbove(c, 0)
  {
    assert forall k :: 0 <= k < |c| ==> c[k] != 'u' && c[k] != 'G';
    TooShort(c, "dependencies");
    TooShort(c, "Configuring");
    Lacks(c, "Building", 1);
    Lacks(c, "Gradle", 0);
    Lacks(c, "Success", 1);
  }

  lemma SymbolsPiece2(c: string)
    requires c == "# "
    ensures AbsentAbove(c, 0)
  {
    TooShort(c, "dependencies");
    TooShort(c, "Configuring");
    TooShort(c, "Building");
    TooShort(c, "Gradle");
    TooShort(c, "Success");
  }

  lemma EASBuildPiece(c: string)
    requires c == " EAS Build..."
    ensures AbsentAbove(c, 0)
  {
    assert forall k :: 0 <= k < |c| ==> c[k] != 'e' && c[k] != 'g';
    Lacks(c, "dependencies", 1);
    Lacks(c, "Configuring", 5);
    Lacks(c, "Building", 7);
    Lacks(c, "Gradle", 5);
    Lacks(c, "Success", 4);
  }

  lemma APKPiece(c: string)
    requires c == " APK..."
    ensures AbsentAbove(c, 0)
  {
    assert forall k :: 0 <= k < |c| ==> c[k] != 'e';
    TooShort(c, "dependencies");
    TooShort(c, "Configuring");
    TooShort(c, "Building");
    Lacks(c, "Gradle", 5);
    Lacks(c, "Success", 4);
  }

  lemma APKBuiltPiece(c: string)
    requires c == "✅ APK Built "
    ensures AbsentAbove(c, 0)
  {
    assert forall k :: 0 <= k < |c| ==> c[k] != 'd' && c[k] != 'C' && c[k] != 'S';
    Lacks(c, "dependencies", 0);
    Lacks(c, "Configuring", 0);
    Lacks(c, "Building", 4);
    Lacks(c, "Gradle", 3);
    Lacks(c, "Success", 0);
  }

  lemma FullyPiece(c: string)
    requires c == "fully!"
    ensures AbsentAbove(c, 0)
  {
    assert forall k :: 0 <= k < |c| ==> c[k] != 'G';
    TooShort(c, "dependencies");
    TooShort(c, "Configuring");
    TooShort(c, "Building");
    Lacks(c, "Gradle", 0);
    TooShort(c, "Success");
  }

  lemma EasBuildPiece(c: string)
    requires c == "$ eas build "
    ensures AbsentAbove(c, 0)
  {
    assert forall k :: 0 <= k < |c| ==> c[k] != 'n' && c[k] != 'G' && c[k] != 'S';
    Lacks(c, "dependencies", 4);
    Lacks(c, "Configuring", 2);
    Lacks(c, "Building", 6);
    Lacks(c, "Gradle", 0);
    Lacks(c, "Success", 0);
  }

  lemma PAndroidProfilePiece(c: string)
    requires c == "-p android --profile preview"
    ensures AbsentAbove(c, 0)
  {
    assert forall k :: 0 <= k < |c| ==> c[k] != 'u' && c[k] != 'G' && c[k] != 'c';
    Lacks(c, "dependencies", 8);
    Lacks(c, "Configuring", 6);
    Lacks(c, "Building", 1);
    Lacks(c, "Gradle", 0);
    Lacks(c, "Success", 1);
  }

  lemma UploadingPiece(c: string)
    requires c == "› Uploading "
    ensures AbsentAbove(c, 0)
  {
    assert forall k :: 0 <= k < |c| ==> c[k] != 'e' && c[k] != 'u';
    Lacks(c, "dependencies", 1);
    Lacks(c, "Configuring", 6);
    Lacks(c, "Building", 1);
    Lacks(c, "Gradle", 5);
    Lacks(c, "Success", 4);
  }

  lemma ProjectToEASPiece(c: string)
    requires c == "project to EAS Build..."
    ensures AbsentAbove(c, 0)
  {
    assert forall k :: 0 <= k < |c| ==> c[k] != 'n' && c[k] != 'G' && c[k] != 's';
    Lacks(c, "dependencies", 4);
    Lacks(c, "Configuring", 2);
    Lacks(c, "Building", 6);
    Lacks(c, "Gradle", 0);
    Lacks(c, "Success", 5);
  }

  lemma SymbolsPiece3(c: string)
    requires c == "› "
    ensures AbsentAbove(c, 0)
  {
    TooShort(c, "dependencies");
    TooShort(c, "Configuring");
    TooShort(c, "Building");
    TooShort(c, "Gradle");
    TooShort(c, "Success");
  }

  lemma BuildRunningPiece(c: string)
    requires c == " build running..."
    ensures AbsentAbove(c, 0)
  {
    assert forall k :: 0 <= k < |c| ==> c[k] != 'e' && c[k] != 'B' && c[k] != 'C';
    Lacks(c, "dependencies", 1);
    Lacks(c, "Configuring", 0);
    Lacks(c, "Building", 0);
    Lacks(c, "Gradle", 5);
    Lacks(c, "Success", 4);
  }

  lemma ApplyPluginPiece(c: string)
    requires c == "› apply plugin: "
    ensures AbsentAbove(c, 0)
  {
    assert forall k :: 0 <= k < |c| ==> c[k] != 'd' && c[k] != 'C' && c[k] != 'S';
    Lacks(c, "dependencies", 0);
    Lacks(c, "Configuring", 0);
    Lacks(c, "Building", 4);
    Lacks(c, "Gradle", 3);
    Lacks(c, "Success", 0);
  }

  lemma ComAndroidApplicationPiece(c: string)
    requires c == "'com.android.application'"
    ensures AbsentAbove(c, 0)
  {
    assert forall k :: 0 <= k < |c| ==> c[k] != 'e' && c[k] != 'g';
    Lacks(c, "dependencies", 1);
    Lacks(c, "Configuring", 5);
    Lacks(c, "Building", 7);
    Lacks(c, "Gradle", 5);
    Lacks(c, "Success", 4);
  }

  lemma CompileHeadPiece(c: string)
    requires c == "› c"
    ensures AbsentAbove(c, 0)
  {
    TooShort(c, "dependencies");
    TooShort(c, "Configuring");
    TooShort(c, "Building");
    TooShort(c, "Gradle");
    TooShort(c, "Success");
  }

  lemma CompileTailPiece(c: string)
    requires c == "ompileSdkVersion 33"
    ensures AbsentAbove(c, 0)
  {
    assert forall k :: 0 <= k < |c| ==> c[k] != 'u' && c[k] != 'G' && c[k] != 'c';
    Lacks(c, "dependencies", 8);
    Lacks(c, "Configuring", 6);
    Lacks(c, "Building", 1);
    Lacks(c, "Gradle", 0);
    Lacks(c, "Success", 1);
  }

  lemma DownloadHttpsExpoPiece(c: string)
    requires c == "Download: https://expo.dev/"
    ensures AbsentAbove(c, 0)
  {
    assert forall k :: 0 <= k < |c| ==> c[k] != 'i' && c[k] != 'G' && c[k] != 'S';
    Lacks(c, "dependencies", 9);
    Lacks(c, "Configuring", 4);
    Lacks(c, "Building", 2);
    Lacks(c, "Gradle", 0);
    Lacks(c, "Success", 0);
  }

  lemma ArtifactsAndroidBuildPiece(c: string)
    requires c == "artifacts/android/build-8239.apk"
    ensures AbsentAbove(c, 0)
  {
    assert forall k :: 0 <= k < |c| ==> c[k] != 'e' && c[k] != 'g';
    Lacks(c, "dependencies", 1);
    Lacks(c, "Configuring", 5);
    Lacks(c, "Building", 7);
    Lacks(c, "Gradle", 5);
    Lacks(c, "Success", 4);
  }

  lemma QRCodePiece(c: string)
    requires c == "QR Code "
    ensures AbsentAbove(c, 0)
  {
    assert forall k :: 0 <= k < |c| ==> c[k] != 'l' && c[k] != 'S';
    TooShort(c, "dependencies");
    TooShort(c, "Configuring");
    Lacks(c, "Building", 3);
    Lacks(c, "Gradle", 4);
    Lacks(c, "Success", 0);
  }

  lemma GeneratedForDevicePiece(c: string)
    requires c == "generated for device install."
    ensures AbsentAbove(c, 0)
  {
    assert forall k :: 0 <= k < |c| ==> c[k] != 'u' && c[k] != 'G' && c[k] != 'p';
    Lacks(c, "dependencies", 2);
    Lacks(c, "Configuring", 6);
    Lacks(c, "Building", 1);
    Lacks(c, "Gradle", 0);
    Lacks(c, "Success", 1);
  }

  lemma BannerTopLine(c0: string, c1: string, c2: string)
    requires c0 == "╔" && c1 == "════════════════════════════════" && c2 == "═══════════════════════════════╗"
    ensures Effect(c0 + c1 + c2) == None
  {
    CornerTopPiece(c0);
    RulePiece(c1);
    RuleTopEndPiece(c2);
    AbsentAboveConcat(c0, c1, 0);
    AbsentAboveConcat(c0 + c1, c2, 0);
    EffectOf(c0 + c1 + c2, 0);
  }

  lemma BannerTitleLine(c0: string, c1: string, c2: string)
    requires c0 == "║   " && c1 == "LinkZ IAED Mobile - APK Builder " && c2 == "v2.0.1                      ║"
    ensures Effect(c0 + c1 + c2) == None
  {
    FrameLeftPiece(c0);
    LinkZIAEDMobilePiece(c1);
    VersionPiece(c2);
    AbsentAboveConcat(c0, c1, 0);
    AbsentAboveConcat(c0 + c1, c2, 0);
    EffectOf(c0 + c1 + c2, 0);
  }

  lemma BannerBottomLine(c0: string, c1: string, c2: string)
    requires c0 == "╚" && c1 == "════════════════════════════════" && c2 == "═══════════════════════════════╝"
    ensures Effect(c0 + c1 + c2) == None
  {
    CornerBottomPiece(c0);
    RulePiece(c1);
    RuleBottomEndPiece(c2);
    AbsentAboveConcat(c0, c1, 0);
    AbsentAboveConcat(c0 + c1, c2, 0);
    EffectOf(c0 + c1 + c2, 0);
  }

  lemma CheckingNodeLine(m: string)
    requires m == "# Checking Node.js..."
    ensures Effect(m) == None
  {
    assert forall k :: 0 <= k < |m| ==> m[k] != 'u' && m[k] != 'G' && m[k] != 'p';
    Lacks(m, "dependencies", 2);
    Lacks(m, "Configuring", 6);
    Lacks(m, "Building", 1);
    Lacks(m, "Gradle", 0);
    Lacks(m, "Success", 1);
    EffectOf(m, 0);
  }

  lemma NodeDetectedLine(m: string)
    requires m == "✓ Node.js 18+ detected"
    ensures Effect(m) == None
  {
    assert forall k :: 0 <= k < |m| ==> m[k] != 'i' && m[k] != 'G' && m[k] != 'S';
    Lacks(m, "dependencies", 9);
    Lacks(m, "Configuring", 4);
    Lacks(m, "Building", 2);
    Lacks(m, "Gradle", 0);
    Lacks(m, "Success", 0);
    EffectOf(m, 0);
  }

  lemma SimulationModeLine(c0: string, c1: string)
    requires c0 == "Connection to Localhost failed. " && c1 == "Running in Simulation Mode."
    ensures Effect(c0 + c1) == None
  {
    ConnectionToLocalhostPiece(c0);
    RunningInSimulationPiece(c1);
    AbsentAboveConcat(c0, c1, 0);
    EffectOf(c0 + c1, 0);
  }

  lemma PrerequisitesCheckedLine(m: string)
    requires m == "✅ Prerequisites checked"
    ensures Effect(m) == None
  {
    assert forall k :: 0 <= k < |m| ==> m[k] != 'n' && m[k] != 'G' && m[k] != 'S';
    Lacks(m, "dependencies", 4);
    Lacks(m, "Configuring", 2);
    Lacks(m, "Building", 6);
    Lacks(m, "Gradle", 0);
    Lacks(m, "Success", 0);
    EffectOf(m, 0);
  }

  lemma InstallingDependenciesLine(c0: string, c1: string, c2: string)
    requires c0 == "# Installing " && c1 == "dependencies" && c2 == "..."
    ensures Effect(c0 + c1 + c2) == Some(30)
  {
    InstallingPiece(c0);
    KeywordPiece(c1);
    SymbolsPiece(c2);
    AbsentAboveConcat(c0, c1, 30);
    AbsentAboveConcat(c0 + c1, c2, 30);
    assert Contains(c0 + c1 + c2, "dependencies") by {
      ContainsSelf(c1);
      ContainsConcat(c0, c1, "dependencies");
      ContainsConcat(c0 + c1, c2, "dependencies");
    }
    EffectOf(c0 + c1 + c2, 30);
  }

  lemma NpmInstallLine(m: string)
    requires m == "$ npm install"
    ensures Effect(m) == None
  {
    assert forall k :: 0 <= k < |m| ==> m[k] != 'd' && m[k] != 'u';
    Lacks(m, "dependencies", 0);
    Lacks(m, "Configuring", 6);
    Lacks(m, "Building", 4);
    Lacks(m, "Gradle", 3);
    Lacks(m, "Success", 1);
    EffectOf(m, 0);
  }

  lemma DependenciesInstalledLine(c0: string, c1: string, c2: string)
    requires c0 == "✅ D" && c1 == "ependencies" && c2 == " installed"
    ensures Effect(c0 + c1 + c2) == None
  {
    DependenciesHeadPiece(c0);
    DependenciesTailPiece(c1);
    InstalledPiece(c2);
    AbsentAboveConcat(c0, c1, 0);
    AbsentAboveConcat(c0 + c1, c2, 0);
    EffectOf(c0 + c1 + c2, 0);
  }

  lemma ConfiguringEASLine(c0: string, c1: string, c2: string)
    requires c0 == "# " && c1 == "Configuring" && c2 == " EAS Build..."
    ensures Effect(c0 + c1 + c2) == Some(50)
  {
    SymbolsPiece2(c0);
    KeywordPiece(c1);
    EASBuildPiece(c2);
    AbsentAboveConcat(c0, c1, 50);
    AbsentAboveConcat(c0 + c1, c2, 50);
    assert Contains(c0 + c1 + c2, "Configuring") by {
      ContainsSelf(c1);
      ContainsConcat(c0, c1, "Configuring");
      ContainsConcat(c0 + c1, c2, "Configuring");
    }
    EffectOf(c0 + c1 + c2, 50);
  }

  lemma ProjectConfiguredLine(m: string)
    requires m == "✅ Project configured (eas.json)"
    ensures Effect(m) == None
  {
    assert forall k :: 0 <= k < |m| ==> m[k] != 'l' && m[k] != 'C' && m[k] != 'S' && m[k] != 'p';
    Lacks(m, "dependencies", 2);
    Lacks(m, "Configuring", 0);
    Lacks(m, "Building", 3);
    Lacks(m, "Gradle", 4);
    Lacks(m, "Success", 0);
    EffectOf(m, 0);
  }

  lemma BuildingAPKLine(c0: string, c1: string, c2: string)
    requires c0 == "# " && c1 == "Building" && c2 == " APK..."
    ensures Effect(c0 + c1 + c2) == Some(70)
  {
    SymbolsPiece2(c0);
    KeywordPiece(c1);
    APKPiece(c2);
    AbsentAboveConcat(c0, c1, 70);
    AbsentAboveConcat(c0 + c1, c2, 70);
    assert Contains(c0 + c1 + c2, "Building") by {
      ContainsSelf(c1);
      ContainsConcat(c0, c1, "Building");
      ContainsConcat(c0 + c1, c2, "Building");
    }
    EffectOf(c0 + c1 + c2, 70);
  }

  lemma ApkBuiltLine(c0: string, c1: string, c2: string)
    requires c0 == "✅ APK Built " && c1 == "Success" && c2 == "fully!"
    ensures Effect(c0 + c1 + c2) == Some(100)
  {
    APKBuiltPiece(c0);
    KeywordPiece(c1);
    FullyPiece(c2);
    AbsentAboveConcat(c0, c1, 100);
    AbsentAboveConcat(c0 + c1, c2, 100);
    assert Contains(c0 + c1 + c2, "Success") by {
      ContainsSelf(c1);
      ContainsConcat(c0, c1, "Success");
      ContainsConcat(c0 + c1, c2, "Success");
    }
    EffectOf(c0 + c1 + c2, 100);
  }

  lemma CheckingExpoLine(m: string)
    requires m == "# Checking Expo CLI..."
    ensures Effect(m) == None
  {
    assert forall k :: 0 <= k < |m| ==> m[k] != 'd' && m[k] != 'u';
    Lacks(m, "dependencies", 0);
    Lacks(m, "Configuring", 6);
    Lacks(m, "Building", 4);
    Lacks(m, "Gradle", 3);
    Lacks(m, "Success", 1);
    EffectOf(m, 0);
  }

  lemma InstallingExpoLine(m: string)
    requires m == "Installing Expo CLI..."
    ensures Effect(m) == None
  {
    assert forall k :: 0 <= k < |m| ==> m[k] != 'd' && m[k] != 'u';
    Lacks(m, "dependencies", 0);
    Lacks(m, "Configuring", 6);
    Lacks(m, "Building", 4);
    Lacks(m, "Gradle", 3);
    Lacks(m, "Success", 1);
    EffectOf(m, 0);
  }

  lemma NpmInstallExpoCliLine(m: string)
    requires m == "$ npm install -g expo-cli"
    ensures Effect(m) == None
  {
    assert forall k :: 0 <= k < |m| ==> m[k] != 'd' && m[k] != 'u';
    Lacks(m, "dependencies", 0);
    Lacks(m, "Configuring", 6);
    Lacks(m, "Building", 4);
    Lacks(m, "Gradle", 3);
    Lacks(m, "Success", 1);
    EffectOf(m, 0);
  }

  lemma LoginToLine(m: string)
    requires m == "# Login to Expo account..."
    ensures Effect(m) == None
  {
    assert forall k :: 0 <= k < |m| ==> m[k] != 'd' && m[k] != 'C' && m[k] != 'S';
    Lacks(m, "dependencies", 0);
    Lacks(m, "Configuring", 0);
    Lacks(m, "Building", 4);
    Lacks(m, "Gradle", 3);
    Lacks(m, "Success", 0);
    EffectOf(m, 0);
  }

  lemma EasLoginLine(m: string)
    requires m == "$ eas login"
    ensures Effect(m) == None
  {
    assert forall k :: 0 <= k < |m| ==> m[k] != 'u' && m[k] != 'G';
    TooShort(m, "dependencies");
    Lacks(m, "Configuring", 6);
    Lacks(m, "Building", 1);
    Lacks(m, "Gradle", 0);
    Lacks(m, "Success", 1);
    EffectOf(m, 0);
  }

  lemma LoggedInLine(m: string)
    requires m == "✓ Logged in as studio-156266"
    ensures Effect(m) == None
  {
    assert forall k :: 0 <= k < |m| ==> m[k] != 'c' && m[k] != 'l' && m[k] != 'C';
    Lacks(m, "dependencies", 8);
    Lacks(m, "Configuring", 0);
    Lacks(m, "Building", 3);
    Lacks(m, "Gradle", 4);
    Lacks(m, "Success", 2);
    EffectOf(m, 0);
  }

  lemma EasBuildConfigureLine(m: string)
    requires m == "$ eas build:configure"
    ensures Effect(m) == None
  {
    assert forall k :: 0 <= k < |m| ==> m[k] != 'B' && m[k] != 'C' && m[k] != 'G' && m[k] != 'S' && m[k] != 'p';
    Lacks(m, "dependencies", 2);
    Lacks(m, "Configuring", 0);
    Lacks(m, "Building", 0);
    Lacks(m, "Gradle", 0);
    Lacks(m, "Success", 0);
    EffectOf(m, 0);
  }

  lemma EasBuildAndroidLine(c0: string, c1: string)
    requires c0 == "$ eas build " && c1 == "-p android --profile preview"
    ensures Effect(c0 + c1) == None
  {
    EasBuildPiece(c0);
    PAndroidProfilePiece(c1);
    AbsentAboveConcat(c0, c1, 0);
    EffectOf(c0 + c1, 0);
  }

  lemma UploadingProjectLine(c0: string, c1: string)
    requires c0 == "› Uploading " && c1 == "project to EAS Build..."
    ensures Effect(c0 + c1) == None
  {
    UploadingPiece(c0);
    ProjectToEASPiece(c1);
    AbsentAboveConcat(c0, c1, 0);
    EffectOf(c0 + c1, 0);
  }

  lemma BuildQueuedLine(m: string)
    requires m == "› Build queued..."
    ensures Effect(m) == None
  {
    assert forall k :: 0 <= k < |m| ==> m[k] != 'n' && m[k] != 'G' && m[k] != 'S';
    Lacks(m, "dependencies", 4);
    Lacks(m, "Configuring", 2);
    Lacks(m, "Building", 6);
    Lacks(m, "Gradle", 0);
    Lacks(m, "Success", 0);
    EffectOf(m, 0);
  }

  lemma GradleBuildLine(c0: string, c1: string, c2: string)
    requires c0 == "› " && c1 == "Gradle" && c2 == " build running..."
    ensures Effect(c0 + c1 + c2) == Some(80)
  {
    SymbolsPiece3(c0);
    KeywordPiece(c1);
    BuildRunningPiece(c2);
    AbsentAboveConcat(c0, c1, 80);
    AbsentAboveConcat(c0 + c1, c2, 80);
    assert Contains(c0 + c1 + c2, "Gradle") by {
      ContainsSelf(c1);
      ContainsConcat(c0, c1, "Gradle");
      ContainsConcat(c0 + c1, c2, "Gradle");
    }
    EffectOf(c0 + c1 + c2, 80);
  }

  lemma ApplyPluginLine(c0: string, c1: string)
    requires c0 == "› apply plugin: " && c1 == "'com.android.application'"
    ensures Effect(c0 + c1) == None
  {
    ApplyPluginPiece(c0);
    ComAndroidApplicationPiece(c1);
    AbsentAboveConcat(c0, c1, 0);
    EffectOf(c0 + c1, 0);
  }

  lemma CompileSdkVersion33Line(c0: string, c1: string)
    requires c0 == "› c" && c1 == "ompileSdkVersion 33"
    ensures Effect(c0 + c1) == None
  {
    CompileHeadPiece(c0);
    CompileTailPiece(c1);
    AbsentAboveConcat(c0, c1, 0);
    EffectOf(c0 + c1, 0);
  }

  lemma CompilingResourcesLine(m: string)
    requires m == "› Compiling resources..."
    ensures Effect(m) == None
  {
    assert forall k :: 0 <= k < |m| ==> m[k] != 'd' && m[k] != 'S' && m[k] != 'f';
    Lacks(m, "dependencies", 0);
    Lacks(m, "Configuring", 3);
    Lacks(m, "Building", 4);
    Lacks(m, "Gradle", 3);
    Lacks(m, "Success", 0);
    EffectOf(m, 0);
  }

  lemma DownloadLinkLine(c0: string, c1: string)
    requires c0 == "Download: https://expo.dev/" && c1 == "artifacts/android/build-8239.apk"
    ensures Effect(c0 + c1) == None
  {
    DownloadHttpsExpoPiece(c0);
    ArtifactsAndroidBuildPiece(c1);
    AbsentAboveConcat(c0, c1, 0);
    EffectOf(c0 + c1, 0);
  }

  lemma QRCodeLine(c0: string, c1: string)
    requires c0 == "QR Code " && c1 == "generated for device install."
    ensures Effect(c0 + c1) == None
  {
    QRCodePiece(c0);
    GeneratedForDevicePiece(c1);
    AbsentAboveConcat(c0, c1, 0);
    EffectOf(c0 + c1, 0);
  }

  // ---------------------------------------------------------------------
  // The two canned runs, replayed from 15 (where the deployment view stands
  // once the build id is in).

  /** `messages` are the messages of `lines`, in order. */
  predicate MessagesOf(messages: seq<string>, lines: seq<LogLine>) {
    |messages| == |lines| && forall k :: 0 <= k < |lines| ==> messages[k] == lines[k].message
  }

  /** What lines 0 to 2 of `MOCK_BUILD_LOGS` do to the bar. */
  lemma SimulatedRunLines0(ms: seq<string>)
    requires MessagesOf(ms, LinkZService.MOCK_BUILD_LOGS)
    ensures Effect(ms[0]) == None
    ensures Effect(ms[1]) == None
    ensures Effect(ms[2]) == None
  {
    var L := LinkZService.MOCK_BUILD_LOGS;
    assert ms[0] == L[0].message == "╔" + "════════════════════════════════" + "═══════════════════════════════╗";
    BannerTopLine("╔", "════════════════════════════════", "═══════════════════════════════╗");
    assert ms[1] == L[1].message == "║   " + "LinkZ IAED Mobile - APK Builder " + "v2.0.1                      ║";
    BannerTitleLine("║   ", "LinkZ IAED Mobile - APK Builder ", "v2.0.1                      ║");
    assert ms[2] == L[2].message == "╚" + "════════════════════════════════" + "═══════════════════════════════╝";
    BannerBottomLine("╚", "════════════════════════════════", "═══════════════════════════════╝");
  }

  /** What lines 3 to 5 of `MOCK_BUILD_LOGS` do to the bar. */
  lemma SimulatedRunLines3(ms: seq<string>)
    requires MessagesOf(ms, LinkZService.MOCK_BUILD_LOGS)
    ensures Effect(ms[3]) == None
    ensures Effect(ms[4]) == None
    ensures Effect(ms[5]) == None
  {
    var L := LinkZService.MOCK_BUILD_LOGS;
    assert ms[3] == L[3].message == "# Checking Node.js...";
    CheckingNodeLine("# Checking Node.js...");
    assert ms[4] == L[4].message == "✓ Node.js 18+ detected";
    NodeDetectedLine("✓ Node.js 18+ detected");
    assert ms[5] == L[5].message == "Connection to Localhost failed. " + "Running in Simulation Mode.";
    SimulationModeLine("Connection to Localhost failed. ", "Running in Simulation Mode.");
  }

  /** What lines 6 to 8 of `MOCK_BUILD_LOGS` do to the bar. */
  lemma SimulatedRunLines6(ms: seq<string>)
    requires MessagesOf(ms, LinkZService.MOCK_BUILD_LOGS)
    ensures Effect(ms[6]) == None
    ensures Effect(ms[7]) == Some(30)
    ensures Effect(ms[8]) == None
  {
    var L := LinkZService.MOCK_BUILD_LOGS;
    assert ms[6] == L[6].message == "✅ Prerequisites checked";
    PrerequisitesCheckedLine("✅ Prerequisites checked");
    assert ms[7] == L[7].message == "# Installing " + "dependencies" + "...";
    InstallingDependenciesLine("# Installing ", "dependencies", "...");
    assert ms[8] == L[8].message == "$ npm install";
    NpmInstallLine("$ npm install");
  }

  /** What lines 9 to 11 of `MOCK_BUILD_LOGS` do to the bar. */
  lemma SimulatedRunLines9(ms: seq<string>)
    requires MessagesOf(ms, LinkZService.MOCK_BUILD_LOGS)
    ensures Effect(ms[9]) == None
    ensures Effect(ms[10]) == Some(50)
    ensures Effect(ms[11]) == None
  {
    var L := LinkZService.MOCK_BUILD_LOGS;
    assert ms[9] == L[9].message == "✅ D" + "ependencies" + " installed";
    DependenciesInstalledLine("✅ D", "ependencies", " installed");
    assert ms[10] == L[10].message == "# " + "Configuring" + " EAS Build...";
    ConfiguringEASLine("# ", "Configuring", " EAS Build...");
    assert ms[11] == L[11].message == "✅ Project configured (eas.json)";
    ProjectConfiguredLine("✅ Project configured (eas.json)");
  }

  /** What lines 12 to 13 of `MOCK_BUILD_LOGS` do to the bar. */
  lemma SimulatedRunLines12(ms: seq<string>)
    requires MessagesOf(ms, LinkZService.MOCK_BUILD_LOGS)
    ensures Effect(ms[12]) == Some(70)
    ensures Effect(ms[13]) == Some(100)
  {
    var L := LinkZService.MOCK_BUILD_LOGS;
    assert ms[12] == L[12].message == "# " + "Building" + " APK...";
    BuildingAPKLine("# ", "Building", " APK...");
    assert ms[13] == L[13].message == "✅ APK Built " + "Success" + "fully!";
    ApkBuiltLine("✅ APK Built ", "Success", "fully!");
  }

  /** What lines 0 to 2 of `BUILD_LOGS` do to the bar. */
  lemma ServerRunLines0(ms: seq<string>)
    requires MessagesOf(ms, MockServer.BUILD_LOGS)
    ensures Effect(ms[0]) == None
    ensures Effect(ms[1]) == None
    ensures Effect(ms[2]) == None
  {
    var L := MockServer.BUILD_LOGS;
    assert ms[0] == L[0].message == "╔" + "════════════════════════════════" + "═══════════════════════════════╗";
    BannerTopLine("╔", "════════════════════════════════", "═══════════════════════════════╗");
    assert ms[1] == L[1].message == "║   " + "LinkZ IAED Mobile - APK Builder " + "v2.0.1                      ║";
    BannerTitleLine("║   ", "LinkZ IAED Mobile - APK Builder ", "v2.0.1                      ║");
    assert ms[2] == L[2].message == "╚" + "════════════════════════════════" + "═══════════════════════════════╝";
    BannerBottomLine("╚", "════════════════════════════════", "═══════════════════════════════╝");
  }

  /** What lines 3 to 5 of `BUILD_LOGS` do to the bar. */
  lemma ServerRunLines3(ms: seq<string>)
    requires MessagesOf(ms, MockServer.BUILD_LOGS)
    ensures Effect(ms[3]) == None
    ensures Effect(ms[4]) == None
    ensures Effect(ms[5]) == None
  {
    var L := MockServer.BUILD_LOGS;
    assert ms[3] == L[3].message == "# Checking Node.js...";
    CheckingNodeLine("# Checking Node.js...");
    assert ms[4] == L[4].message == "✓ Node.js 18+ detected";
    NodeDetectedLine("✓ Node.js 18+ detected");
    assert ms[5] == L[5].message == "# Checking Expo CLI...";
    CheckingExpoLine("# Checking Expo CLI...");
  }

  /** What lines 6 to 8 of `BUILD_LOGS` do to the bar. */
  lemma ServerRunLines6(ms: seq<string>)
    requires MessagesOf(ms, MockServer.BUILD_LOGS)
    ensures Effect(ms[6]) == None
    ensures Effect(ms[7]) == None
    ensures Effect(ms[8]) == None
  {
    var L := MockServer.BUILD_LOGS;
    assert ms[6] == L[6].message == "Installing Expo CLI...";
    InstallingExpoLine("Installing Expo CLI...");
    assert ms[7] == L[7].message == "$ npm install -g expo-cli";
    NpmInstallExpoCliLine("$ npm install -g expo-cli");
    assert ms[8] == L[8].message == "✅ Prerequisites checked";
    PrerequisitesCheckedLine("✅ Prerequisites checked");
  }

  /** What lines 9 to 11 of `BUILD_LOGS` do to the bar. */
  lemma ServerRunLines9(ms: seq<string>)
    requires MessagesOf(ms, MockServer.BUILD_LOGS)
    ensures Effect(ms[9]) == Some(30)
    ensures Effect(ms[10]) == None
    ensures Effect(ms[11]) == None
  {
    var L := MockServer.BUILD_LOGS;
    assert ms[9] == L[9].message == "# Installing " + "dependencies" + "...";
    InstallingDependenciesLine("# Installing ", "dependencies", "...");
    assert ms[10] == L[10].message == "$ npm install";
    NpmInstallLine("$ npm install");
    assert ms[11] == L[11].message == "✅ D" + "ependencies" + " installed";
    DependenciesInstalledLine("✅ D", "ependencies", " installed");
  }

  /** What lines 12 to 14 of `BUILD_LOGS` do to the bar. */
  lemma ServerRunLines12(ms: seq<string>)
    requires MessagesOf(ms, MockServer.BUILD_LOGS)
    ensures Effect(ms[12]) == None
    ensures Effect(ms[13]) == None
    ensures Effect(ms[14]) == None
  {
    var L := MockServer.BUILD_LOGS;
    assert ms[12] == L[12].message == "# Login to Expo account...";
    LoginToLine("# Login to Expo account...");
    assert ms[13] == L[13].message == "$ eas login";
    EasLoginLine("$ eas login");
    assert ms[14] == L[14].message == "✓ Logged in as studio-156266";
    LoggedInLine("✓ Logged in as studio-156266");
  }

  /** What lines 15 to 17 of `BUILD_LOGS` do to the bar. */
  lemma ServerRunLines15(ms: seq<string>)
    requires MessagesOf(ms, MockServer.BUILD_LOGS)
    ensures Effect(ms[15]) == Some(50)
    ensures Effect(ms[16]) == None
    ensures Effect(ms[17]) == None
  {
    var L := MockServer.BUILD_LOGS;
    assert ms[15] == L[15].message == "# " + "Configuring" + " EAS Build...";
    ConfiguringEASLine("# ", "Configuring", " EAS Build...");
    assert ms[16] == L[16].message == "$ eas build:configure";
    EasBuildConfigureLine("$ eas build:configure");
    assert ms[17] == L[17].message == "✅ Project configured (eas.json)";
    ProjectConfiguredLine("✅ Project configured (eas.json)");
  }

  /** What lines 18 to 20 of `BUILD_LOGS` do to the bar. */
  lemma ServerRunLines18(ms: seq<string>)
    requires MessagesOf(ms, MockServer.BUILD_LOGS)
    ensures Effect(ms[18]) == Some(70)
    ensures Effect(ms[19]) == None
    ensures Effect(ms[20]) == None
  {
    var L := MockServer.BUILD_LOGS;
    assert ms[18] == L[18].message == "# " + "Building" + " APK...";
    BuildingAPKLine("# ", "Building", " APK...");
    assert ms[19] == L[19].message == "$ eas build " + "-p android --profile preview";
    EasBuildAndroidLine("$ eas build ", "-p android --profile preview");
    assert ms[20] == L[20].message == "› Uploading " + "project to EAS Build...";
    UploadingProjectLine("› Uploading ", "project to EAS Build...");
  }

  /** What lines 21 to 23 of `BUILD_LOGS` do to the bar. */
  lemma ServerRunLines21(ms: seq<string>)
    requires MessagesOf(ms, MockServer.BUILD_LOGS)
    ensures Effect(ms[21]) == None
    ensures Effect(ms[22]) == Some(80)
    ensures Effect(ms[23]) == None
  {
    var L := MockServer.BUILD_LOGS;
    assert ms[21] == L[21].message == "› Build queued...";
    BuildQueuedLine("› Build queued...");
    assert ms[22] == L[22].message == "› " + "Gradle" + " build running...";
    GradleBuildLine("› ", "Gradle", " build running...");
    assert ms[23] == L[23].message == "› apply plugin: " + "'com.android.application'";
    ApplyPluginLine("› apply plugin: ", "'com.android.application'");
  }

  /** What lines 24 to 26 of `BUILD_LOGS` do to the bar. */
  lemma ServerRunLines24(ms: seq<string>)
    requires MessagesOf(ms, MockServer.BUILD_LOGS)
    ensures Effect(ms[24]) == None
    ensures Effect(ms[25]) == None
    ensures Effect(ms[26]) == Some(100)
  {
    var L := MockServer.BUILD_LOGS;
    assert ms[24] == L[24].message == "› c" + "ompileSdkVersion 33";
    CompileSdkVersion33Line("› c", "ompileSdkVersion 33");
    assert ms[25] == L[25].message == "› Compiling resources...";
    CompilingResourcesLine("› Compiling resources...");
    assert ms[26] == L[26].message == "✅ APK Built " + "Success" + "fully!";
    ApkBuiltLine("✅ APK Built ", "Success", "fully!");
  }

  /** What lines 27 to 28 of `BUILD_LOGS` do to the bar. */
  lemma ServerRunLines27(ms: seq<string>)
    requires MessagesOf(ms, MockServer.BUILD_LOGS)
    ensures Effect(ms[27]) == None
    ensures Effect(ms[28]) == None
  {
    var L := MockServer.BUILD_LOGS;
    assert ms[27] == L[27].message == "Download: https://expo.dev/" + "artifacts/android/build-8239.apk";
    DownloadLinkLine("Download: https://expo.dev/", "artifacts/android/build-8239.apk");
    assert ms[28] == L[28].message == "QR Code " + "generated for device install.";
    QRCodeLine("QR Code ", "generated for device install.");
  }

  /** A run from 15 whose messages do what the simulator's lines do. */
  lemma SimulatedRunShape(es: seq<Option<int>>)
    requires |es| == 14
    requires es[0] == None
    requires es[1] == None
    requires es[2] == None
    requires es[3] == None
    requires es[4] == None
    requires es[5] == None
    requires es[6] == None
    requires es[7] == Some(30)
    requires es[8] == None
    requires es[9] == None
    requires es[10] == Some(50)
    requires es[11] == None
    requires es[12] == Some(70)
    requires es[13] == Some(100)
    ensures forall k :: 0 <= k < 7 ==> Track(15, es)[k] == 15
    ensures forall k :: 7 <= k < 10 ==> Track(15, es)[k] == 30
    ensures forall k :: 10 <= k < 12 ==> Track(15, es)[k] == 50
    ensures forall k :: 12 <= k < 13 ==> Track(15, es)[k] == 70
    ensures forall k :: 13 <= k < 14 ==> Track(15, es)[k] == 100
    ensures NonDecreasing(Track(15, es))
  {
    TrackSegment(15, es, 0, 7, 15);
    TrackSegment(15, es, 7, 10, 30);
    TrackSegment(15, es, 10, 12, 50);
    TrackSegment(15, es, 12, 13, 70);
    TrackSegment(15, es, 13, 14, 100);
  }

  /** A run from 15 whose messages do what the server's lines do. */
  lemma ServerRunShape(es: seq<Option<int>>)
    requires |es| == 29
    requires es[0] == None
    requires es[1] == None
    requires es[2] == None
    requires es[3] == None
    requires es[4] == None
    requires es[5] == None
    requires es[6] == None
    requires es[7] == None
    requires es[8] == None
    requires es[9] == Some(30)
    requires es[10] == None
    requires es[11] == None
    requires es[12] == None
    requires es[13] == None
    requires es[14] == None
    requires es[15] == Some(50)
    requires es[16] == None
    requires es[17] == None
    requires es[18] == Some(70)
    requires es[19] == None
    requires es[20] == None
    requires es[21] == None
    requires es[22] == Some(80)
    requires es[23] == None
    requires es[24] == None
    requires es[25] == None
    requires es[26] == Some(100)
    requires es[27] == None
    requires es[28] == None
    ensures forall k :: 0 <= k < 9 ==> Track(15, es)[k] == 15
    ensures forall k :: 9 <= k < 15 ==> Track(15, es)[k] == 30
    ensures forall k :: 15 <= k < 18 ==> Track(15, es)[k] == 50
    ensures forall k :: 18 <= k < 22 ==> Track(15, es)[k] == 70
    ensures forall k :: 22 <= k < 26 ==> Track(15, es)[k] == 80
    ensures forall k :: 26 <= k < 29 ==> Track(15, es)[k] == 100
    ensures NonDecreasing(Track(15, es))
  {
    TrackSegment(15, es, 0, 9, 15);
    TrackSegment(15, es, 9, 15, 30);
    TrackSegment(15, es, 15, 18, 50);
    TrackSegment(15, es, 18, 22, 70);
    TrackSegment(15, es, 22, 26, 80);
    TrackSegment(15, es, 26, 29, 100);
  }

  /** The local simulator's run (the offline path): the bar stays at 15
      through the banner and the simulation-mode warning, moves to 30 on
      "# Installing dependencies...", stays there for the capitalised
      "Dependencies installed", then goes 50, 70 and 100. */
  lemma SimulatedRunProgress(ms: seq<string>)
    requires MessagesOf(ms, LinkZService.MOCK_BUILD_LOGS)
    ensures |Replay(15, ms)| == 14
    ensures forall k :: 0 <= k < 7 ==> Replay(15, ms)[k] == 15
    ensures forall k :: 7 <= k < 10 ==> Replay(15, ms)[k] == 30
    ensures forall k :: 10 <= k < 12 ==> Replay(15, ms)[k] == 50
    ensures forall k :: 12 <= k < 13 ==> Replay(15, ms)[k] == 70
    ensures forall k :: 13 <= k < 14 ==> Replay(15, ms)[k] == 100
    ensures NonDecreasing(Replay(15, ms))
  {
    SimulatedRunLines0(ms);
    SimulatedRunLines3(ms);
    SimulatedRunLines6(ms);
    SimulatedRunLines9(ms);
    SimulatedRunLines12(ms);
    ReplayIsTrack(15, ms);
    SimulatedRunShape(Effects(ms));
  }

  /** The mock server's run: 30 at the dependency install, 50 at the EAS
      configuration, 70 at the APK build, 80 when Gradle runs, 100 at the
      success report. */
  lemma ServerRunProgress(ms: seq<string>)
    requires MessagesOf(ms, MockServer.BUILD_LOGS)
    ensures |Replay(15, ms)| == 29
    ensures forall k :: 0 <= k < 9 ==> Replay(15, ms)[k] == 15
    ensures forall k :: 9 <= k < 15 ==> Replay(15, ms)[k] == 30
    ensures forall k :: 15 <= k < 18 ==> Replay(15, ms)[k] == 50
    ensures forall k :: 18 <= k < 22 ==> Replay(15, ms)[k] == 70
    ensures forall k :: 22 <= k < 26 ==> Replay(15, ms)[k] == 80
    ensures forall k :: 26 <= k < 29 ==> Replay(15, ms)[k] == 100
    ensures NonDecreasing(Replay(15, ms))
  {
    ServerRunLines0(ms);
    ServerRunLines3(ms);
    ServerRunLines6(ms);
    ServerRunLines9(ms);
    ServerRunLines12(ms);
    ServerRunLines15(ms);
    ServerRunLines18(ms);
    ServerRunLines21(ms);
    ServerRunLines24(ms);
    ServerRunLines27(ms);
    ReplayIsTrack(15, ms);
    ServerRunShape(Effects(ms));
  }
}
