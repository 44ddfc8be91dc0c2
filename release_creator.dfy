/** The release wizard (components/ReleaseCreator.tsx): a four-step form whose
    step counter is clamped to [1,4], a partial release record edited one field
    at a time, and the two calls to the generative service, cover art and
    metadata review, which raise and clear a shared `loading` flag. */
module ReleaseWizard {
  import opened Types
  import opened Strings

  const FIRST_STEP := 1
  const LAST_STEP := 4

  /** An entry of the stepper, `{ id, label }`; the label is its caption. */
  datatype StepInfo = StepInfo(id: nat, caption: string)

  const STEPS: seq<StepInfo> := [
    StepInfo(1, "DDEX Metadata"),
    StepInfo(2, "Media Assets"),
    StepInfo(3, "Artwork"),
    StepInfo(4, "Neural Review")
  ]

  predicate InRange(step: int) {
    FIRST_STEP <= step <= LAST_STEP
  }

  /** The Back button's updater, `Math.max(1, s - 1)`. */
  function BackStep(s: int): (r: int)
    ensures r >= FIRST_STEP
    ensures InRange(s) ==> InRange(r) && r <= s
  {
    if s - 1 < FIRST_STEP then FIRST_STEP else s - 1
  }

  /** The Continue button's updater, `Math.min(4, s + 1)`. */
  function ContinueStep(s: int): (r: int)
    ensures r <= LAST_STEP
    ensures InRange(s) ==> InRange(r) && r >= s
  {
    if s + 1 > LAST_STEP then LAST_STEP else s + 1
  }

  /** Back undoes Continue below the last step; Continue undoes Back above
      the first. */
  lemma BackContinueInverse(s: int)
    requires InRange(s)
    ensures s < LAST_STEP ==> BackStep(ContinueStep(s)) == s
    ensures s > FIRST_STEP ==> ContinueStep(BackStep(s)) == s
  {
  }

  datatype Click = BackClick | ContinueClick

  /** The step after a series of clicks on the footer buttons. */
  function Press(s: int, clicks: seq<Click>): int
    decreases |clicks|
  {
    if clicks == [] then s
    else Press(if clicks[0] == BackClick then BackStep(s) else ContinueStep(s), clicks[1..])
  }

  /** Whatever the clicks, the step stays in [1,4]. */
  lemma {:induction false} ClicksStayInRange(s: int, clicks: seq<Click>)
    requires InRange(s)
    ensures InRange(Press(s, clicks))
    decreases |clicks|
  {
    if clicks != [] {
      ClicksStayInRange(if clicks[0] == BackClick then BackStep(s) else ContinueStep(s), clicks[1..]);
    }
  }

  /** `k` clicks on Continue. */
  function Continues(s: int, k: nat): int
    decreases k
  {
    if k == 0 then s else Continues(ContinueStep(s), k - 1)
  }

  /** `k` clicks on Back. */
  function Backs(s: int, k: nat): int
    decreases k
  {
    if k == 0 then s else Backs(BackStep(s), k - 1)
  }

  /** `k` clicks on Continue advance by `k`, stopping at the last step. */
  lemma {:induction false} ContinuesReach(s: int, k: nat)
    requires InRange(s)
    ensures Continues(s, k) == if s + k > LAST_STEP then LAST_STEP else s + k
    decreases k
  {
    if k > 0 {
      ContinuesReach(ContinueStep(s), k - 1);
    }
  }

  /** `k` clicks on Back go back by `k`, stopping at the first step. */
  lemma {:induction false} BacksReach(s: int, k: nat)
    requires InRange(s)
    ensures Backs(s, k) == if s - k < FIRST_STEP then FIRST_STEP else s - k
    decreases k
  {
    if k > 0 {
      BacksReach(BackStep(s), k - 1);
    }
  }

  /** `disabled={step === 1}` on Back. */
  predicate BackDisabled(step: int) {
    step == 1
  }

  /** Continue is rendered while `step < 4`; the last step shows
      "Distribute Release" instead. */
  predicate ContinueOffered(step: int) {
    step < 4
  }

  /** Within the range, Back is disabled exactly where its updater would
      change nothing, and Continue is offered exactly where its updater
      would change the step. */
  lemma ButtonsMatchUpdaters(step: int)
    requires InRange(step)
    ensures BackDisabled(step) <==> BackStep(step) == step
    ensures ContinueOffered(step) <==> ContinueStep(step) != step
  {
  }

  /** The indicator of step `id` shows the check mark: `step > s.id`. */
  predicate Completed(step: int, id: int) {
    step > id
  }

  /** The indicator of step `id` is highlighted: `step >= s.id`. */
  predicate Lit(step: int, id: int) {
    step >= id
  }

  /** How many indicators of `steps` show the check mark. */
  function CountCompleted(step: int, steps: seq<StepInfo>): (n: nat)
    ensures n <= |steps|
  {
    if steps == [] then 0
    else (if Completed(step, steps[0].id) then 1 else 0) + CountCompleted(step, steps[1..])
  }

  /** The ids of `steps` run `from`, `from + 1`, ... */
  predicate Numbered(steps: seq<StepInfo>, from: int) {
    forall k :: 0 <= k < |steps| ==> steps[k].id == from + k
  }

  lemma {:induction false} CountNumbered(step: int, steps: seq<StepInfo>, from: int)
    requires Numbered(steps, from)
    ensures CountCompleted(step, steps) ==
              if step - from < 0 then 0 else if step - from > |steps| then |steps| else step - from
    decreases |steps|
  {
    if steps != [] {
      assert Numbered(steps[1..], from + 1) by {
        forall k | 0 <= k < |steps[1..]|
          ensures steps[1..][k].id == from + 1 + k
        {
          assert steps[1..][k] == steps[k + 1];
        }
      }
      CountNumbered(step, steps[1..], from + 1);
    }
  }

  /** At step `s` the indicators of the `s - 1` earlier steps carry the check
      mark; the current one is the only one lit without it, and the last
      step's indicator never completes. */
  lemma Indicators(step: int)
    requires InRange(step)
    ensures CountCompleted(step, STEPS) == step - 1
    ensures forall k :: 0 <= k < |STEPS| ==>
              (Lit(step, STEPS[k].id) && !Completed(step, STEPS[k].id) <==> STEPS[k].id == step)
    ensures !Completed(step, STEPS[|STEPS| - 1].id)
  {
    CountNumbered(step, STEPS, 1);
  }

  /** `s.split(c)[0]`: the text before the first `c`, the whole text when it
      has none. */
  function BeforeFirst(s: string, c: char): (r: string)
    ensures c !in r
    ensures StartsWith(s, r)
    ensures |r| < |s| ==> s[|r|] == c
  {
    if s == [] || s[0] == c then [] else [s[0]] + BeforeFirst(s[1..], c)
  }

  /** The record the form starts from. `isoNow` is `new Date().toISOString()`
      and `year` is `new Date().getFullYear()`. Neither a title nor a primary
      genre is present, so cover art cannot be requested yet. */
  function InitialRecord(isoNow: string, year: nat): (r: Release)
    ensures r.Keys == {Status, Language, ReleaseType, Explicit, ReleaseDate, CLine, PLine}
    ensures r[Status] == Text("draft") && r[Language] == Text("en")
    ensures r[ReleaseType] == Text("Single") && r[Explicit] == Flag(false)
    ensures r[ReleaseDate] == Text(BeforeFirst(isoNow, 'T'))
    ensures r[CLine] == Text("© " + DecimalString(year) + " ")
    ensures r[PLine] == Text("℗ " + DecimalString(year) + " ")
    ensures !ArtAllowed(r)
  {
    map[
      Status := Text("draft"),
      Language := Text("en"),
      ReleaseType := Text("Single"),
      Explicit := Flag(false),
      ReleaseDate := Text(BeforeFirst(isoNow, 'T')),
      CLine := Text("© " + DecimalString(year) + " "),
      PLine := Text("℗ " + DecimalString(year) + " ")
    ]
  }

  /** The © and ℗ lines of the initial record name the year: records made
      in different years carry different lines, and the digits between the
      sign and the trailing space read back as the year. */
  lemma CopyrightLinesNameYear(isoNow: string, year1: nat, year2: nat)
    ensures InitialRecord(isoNow, year1)[CLine] == InitialRecord(isoNow, year2)[CLine] <==> year1 == year2
    ensures InitialRecord(isoNow, year1)[PLine] == InitialRecord(isoNow, year2)[PLine] <==> year1 == year2
    ensures var t := InitialRecord(isoNow, year1)[CLine].text; DecimalValue(t[2..|t| - 1]) == year1
  {
    var d1, d2 := DecimalString(year1), DecimalString(year2);
    DecimalRoundTrip(year1);
    DecimalRoundTrip(year2);
    var c1, c2 := "© " + d1 + " ", "© " + d2 + " ";
    var p1, p2 := "℗ " + d1 + " ", "℗ " + d2 + " ";
    assert c1[2..|c1| - 1] == d1 && c2[2..|c2| - 1] == d2;
    assert p1[2..|p1| - 1] == d1 && p2[2..|p2| - 1] == d2;
  }

  /** `handleInputChange(field, value)` on a record: the named field takes the
      value and every other field is left as it was. */
  function WithField(r: Release, field: Field, value: Value): (r': Release)
    ensures field in r' && r'[field] == value
    ensures forall f :: f != field ==> (f in r' <==> f in r)
    ensures forall f :: f != field && f in r ==> r'[f] == r[f]
  {
    r[field := value]
  }

  /** The guard of `handleGenerateArt`: it returns at once when both the
      title and the primary genre are falsy. */
  predicate ArtAllowed(r: Release) {
    FieldTruthy(r, Title) || FieldTruthy(r, PrimaryGenre)
  }

  const DEFAULT_STYLE := "Abstract, minimalist, high fidelity"

  /** `metadata.displayArtist || 'artist'` */
  function ArtistOf(r: Release): string {
    if FieldTruthy(r, DisplayArtist) then Rendered(r, DisplayArtist) else "artist"
  }

  /** The style sentence: the secondary genre when it is truthy, otherwise a
      fixed phrase. */
  function StyleOf(r: Release): string {
    if FieldTruthy(r, SecondaryGenre) then "Style: " + Rendered(r, SecondaryGenre) else DEFAULT_STYLE
  }

  /** The prompt up to the opening quote of the title. */
  function PromptHead(r: Release): string {
    "Album cover for " + Rendered(r, PrimaryGenre) + " track named \""
  }

  /** The prompt up to the title: genre and title as the template renders them. */
  function PromptOpening(r: Release): string {
    PromptHead(r) + Rendered(r, Title)
  }

  /** The closing quote and the artist sentence. */
  function PromptArtist(r: Release): string {
    "\" by " + ArtistOf(r) + ". "
  }

  /** The style sentence and the final full stop. */
  function PromptStyle(r: Release): string {
    StyleOf(r) + "."
  }

  /** The prompt handed to the cover-art generator. */
  function ArtPrompt(r: Release): string {
    PromptOpening(r) + PromptArtist(r) + PromptStyle(r)
  }

  /** The prompt names the display artist when there is one, and the word
      `artist` otherwise. */
  lemma PromptNamesArtist(r: Release)
    ensures FieldTruthy(r, DisplayArtist) && r[DisplayArtist].Text? ==>
              Contains(ArtPrompt(r), "\" by " + r[DisplayArtist].text + ". ")
    ensures !FieldTruthy(r, DisplayArtist) ==> Contains(ArtPrompt(r), "\" by " + "artist" + ". ")
  {
    ContainsInfix(PromptOpening(r), PromptArtist(r), PromptStyle(r));
  }

  /** The prompt ends with the secondary genre as its style when that is
      truthy, and with the fixed phrase otherwise. */
  lemma PromptEndsWithStyle(r: Release)
    ensures FieldTruthy(r, SecondaryGenre) && r[SecondaryGenre].Text? ==>
              EndsWith(ArtPrompt(r), "Style: " + r[SecondaryGenre].text + ".")
    ensures !FieldTruthy(r, SecondaryGenre) ==> EndsWith(ArtPrompt(r), DEFAULT_STYLE + ".")
  {
    EndsWithConcat(PromptOpening(r) + PromptArtist(r), PromptStyle(r));
  }

  /** The prompt reads four fields and nothing else. */
  lemma PromptReadsFourFields(r1: Release, r2: Release)
    requires forall f :: f in {Title, PrimaryGenre, DisplayArtist, SecondaryGenre} ==>
               (f in r1 <==> f in r2) && (f in r1 ==> r1[f] == r2[f])
    ensures ArtPrompt(r1) == ArtPrompt(r2)
  {
    assert Rendered(r1, Title) == Rendered(r2, Title);
    assert Rendered(r1, PrimaryGenre) == Rendered(r2, PrimaryGenre);
    assert ArtistOf(r1) == ArtistOf(r2);
    assert StyleOf(r1) == StyleOf(r2);
  }

  /** A title alone passes the guard, and the missing genre is rendered by
      the template literal as `undefined`. */
  lemma TitleWithoutGenre(r: Release)
    requires FieldTruthy(r, Title) && PrimaryGenre !in r
    ensures ArtAllowed(r)
    ensures StartsWith(ArtPrompt(r), "Album cover for " + "undefined" + " track named \"")
  {
    var head := PromptHead(r);
    StartsWithConcat(head, Rendered(r, Title));
    StartsWithExtend(PromptOpening(r), head, PromptArtist(r));
    StartsWithExtend(PromptOpening(r) + PromptArtist(r), head, PromptStyle(r));
  }

  /** The prompt of a record that has a title but no genres and no artist. */
  lemma TitleOnlyPrompt(r: Release, title: string)
    requires Title in r && r[Title] == Text(title)
    requires PrimaryGenre !in r && DisplayArtist !in r && SecondaryGenre !in r
    ensures ArtPrompt(r) == "Album cover for " + "undefined" + " track named \"" + title
                            + ("\" by " + "artist" + ". ") + (DEFAULT_STYLE + ".")
  {
  }

  /** The wizard's state: `step`, the `metadata` record, the `loading` flag,
      the generated image and the review text. */
  class Wizard {
    var step: int
    var metadata: Release
    var loading: bool
    var generatedImage: Option<string>
    var aiAnalysis: Option<string>

    ghost predicate Valid()
      reads this
    {
      InRange(step)
    }

    /** The wizard as first rendered, on the clock readings `isoNow` and `year`. */
    constructor (isoNow: string, year: nat)
      ensures Valid()
      ensures step == FIRST_STEP && metadata == InitialRecord(isoNow, year)
      ensures !loading && generatedImage == None && aiAnalysis == None
    {
      step := FIRST_STEP;
      metadata := InitialRecord(isoNow, year);
      loading := false;
      generatedImage := None;
      aiAnalysis := None;
    }

    /** `handleInputChange(field, value)` */
    method InputChange(field: Field, value: Value)
      modifies this`metadata
      ensures metadata == WithField(old(metadata), field, value)
    {
      metadata := metadata[field := value];
    }

    /** A click on Back. */
    method Back()
      requires Valid()
      modifies this`step
      ensures Valid() && step == BackStep(old(step))
    {
      step := if step - 1 < FIRST_STEP then FIRST_STEP else step - 1;
    }

    /** A click on Continue. */
    method Continue()
      requires Valid()
      modifies this`step
      ensures Valid() && step == ContinueStep(old(step))
    {
      step := if step + 1 > LAST_STEP then LAST_STEP else step + 1;
    }

    /** The synchronous part of `handleGenerateArt`, up to the call of the
        generator: nothing happens when the guard fails; otherwise `loading`
        is raised and the prompt is returned. */
    method BeginGenerateArt() returns (prompt: Option<string>)
      modifies this`loading
      ensures prompt.Some? <==> ArtAllowed(metadata)
      ensures prompt.Some? ==> prompt.value == ArtPrompt(metadata) && loading
      ensures prompt.None? ==> loading == old(loading)
    {
      if !ArtAllowed(metadata) {
        return None;
      }
      loading := true;
      prompt := Some(ArtPrompt(metadata));
    }

    /** The rest of `handleGenerateArt` once the generator has settled: a
        truthy image becomes the generated image and the cover-art URL; a
        null or empty image, or a throw, leaves both alone. `loading` ends
        false on every path. */
    method FinishGenerateArt(outcome: Settled<Option<string>>)
      modifies this`loading, this`generatedImage, this`metadata
      ensures !loading
      ensures outcome.Resolved? && Truthy(outcome.value) ==>
                && generatedImage == outcome.value
                && metadata == WithField(old(metadata), CoverArtUrl, Text(outcome.value.value))
      ensures !(outcome.Resolved? && Truthy(outcome.value)) ==>
                generatedImage == old(generatedImage) && metadata == old(metadata)
    {
      if outcome.Resolved? && Truthy(outcome.value) {
        generatedImage := outcome.value;
        InputChange(CoverArtUrl, Text(outcome.value.value));
      }
      loading := false;
    }

    /** The synchronous part of `handleAnalyze`: `loading` is raised and the
        record is handed to the review service. */
    method BeginAnalyze() returns (snapshot: Release)
      modifies this`loading
      ensures loading && snapshot == metadata
    {
      loading := true;
      snapshot := metadata;
    }

    /** The rest of `handleAnalyze` once the review has settled. There is no
        catch: a throw leaves the previous review and propagates out of the
        handler (`rethrown`); `loading` ends false on both paths. */
    method FinishAnalyze(outcome: Settled<string>) returns (rethrown: bool)
      modifies this`loading, this`aiAnalysis
      ensures !loading
      ensures rethrown <==> outcome.Rejected?
      ensures outcome.Resolved? ==> aiAnalysis == Some(outcome.value)
      ensures outcome.Rejected? ==> aiAnalysis == old(aiAnalysis)
    {
      if outcome.Resolved? {
        aiAnalysis := Some(outcome.value);
      }
      loading := false;
      rethrown := outcome.Rejected?;
    }
  }

  /** Typing a title into a wizard that has no genres and no artist, then
      asking for cover art: the request goes out with the genre rendered as
      `undefined`, the artist defaulted and the fixed style phrase. */
  method TitleThenArt(w: Wizard, title: string) returns (prompt: Option<string>)
    requires title != ""
    requires PrimaryGenre !in w.metadata && DisplayArtist !in w.metadata && SecondaryGenre !in w.metadata
    modifies w
    ensures prompt == Some("Album cover for " + "undefined" + " track named \"" + title
                           + ("\" by " + "artist" + ". ") + (DEFAULT_STYLE + "."))
  {
    w.InputChange(Title, Text(title));
    prompt := w.BeginGenerateArt();
    TitleOnlyPrompt(w.metadata, title);
  }

  /** A fresh wizard refuses to request cover art; once a title is typed,
      the request goes out. */
  method FirstArtRequest(isoNow: string, year: nat, title: string) returns (before: Option<string>, after: Option<string>)
    requires title != ""
    ensures before == None
    ensures after == Some("Album cover for " + "undefined" + " track named \"" + title
                          + ("\" by " + "artist" + ". ") + (DEFAULT_STYLE + "."))
  {
    var w := new Wizard(isoNow, year);
    before := w.BeginGenerateArt();
    after := TitleThenArt(w, title);
  }

  /** Three clicks on Continue take a fresh wizard to the review step, where
      Continue gives way to "Distribute Release"; three clicks on Back take
      it back to the first step, where Back is disabled. */
  method WalkSteps(isoNow: string, year: nat) returns (last: int, first: int)
    ensures last == LAST_STEP && !ContinueOffered(last)
    ensures first == FIRST_STEP && BackDisabled(first)
  {
    var w := new Wizard(isoNow, year);
    var k := 0;
    while k < 3
      invariant 0 <= k <= 3 && w.Valid() && w.step == 1 + k
    {
      w.Continue();
      k := k + 1;
    }
    last := w.step;
    while k > 0
      invariant 0 <= k <= 3 && w.Valid() && w.step == 1 + k
    {
      w.Back();
      k := k - 1;
    }
    first := w.step;
  }
}
