/** The consultation panel (components/ReasoningEngine.tsx): a query box, a
    submit handler that waits on the reasoning service, and a typing effect
    that reveals the answer one UTF-16 code unit per timer tick. */
module Reasoning {
  import opened Types
  import opened Strings

  /** The text shown when the service throws. Written as two pieces so that
      the verifier does not unfold the UTF-16 encoding over the whole literal. */
  const MALFUNCTION := "System Malfunction: " + "Unable to retrieve intelligence data."

  /** The submit button is enabled: `!(loading || !input.trim())`. */
  predicate ConsultEnabled(loading: bool, input: string) {
    !loading && Trim(input) != []
  }

  /** The button is enabled exactly when nothing is loading and the query
      has a character that is not white space. */
  lemma ConsultEnabledIff(loading: bool, input: string)
    ensures ConsultEnabled(loading, input) <==> !loading && !AllWhitespace(input)
  {
    TrimEmptyIffBlank(input);
  }

  /** What the panel will show for a settled call: the service's answer, or
      the malfunction text when it threw. */
  function Answer(outcome: Settled<string>): string {
    if outcome.Resolved? then outcome.value else MALFUNCTION
  }

  /** The panel's state: `input`, `loading`, `response` and
      `displayedResponse`, plus the typing effect's interval: whether one is
      running (`revealing`) and its index `i` (`cursor`). `charAt` and
      `length` count UTF-16 code units, so the displayed text is a sequence
      of code units and may end halfway through a surrogate pair. */
  class Engine {
    var input: string
    var loading: bool
    var response: Option<string>
    var displayed: seq<CodeUnit>
    var revealing: bool
    var cursor: nat

    /** What is shown is always the first `cursor` code units of the
        response, and an interval runs exactly while some are still hidden. */
    ghost predicate Valid()
      reads this
    {
      && (response.None? ==> displayed == [] && !revealing)
      && (response.Some? ==>
            && cursor <= |Utf16(response.value)|
            && displayed == Utf16(response.value)[..cursor]
            && (revealing <==> cursor < |Utf16(response.value)|))
    }

    constructor ()
      ensures Valid()
      ensures input == [] && !loading && response == None && displayed == [] && !revealing
    {
      input := [];
      loading := false;
      response := None;
      displayed := [];
      revealing := false;
      cursor := 0;
    }

    /** The query box's `onChange`. */
    method SetInput(text: string)
      modifies this`input
      ensures input == text
    {
      input := text;
    }

    /** The synchronous part of `handleConsult`, up to the awaited call. A
        blank query does nothing. Otherwise `loading` is raised, the response
        is cleared (which stops any reveal in progress) and the displayed
        text is emptied; the query handed to the service is returned. */
    method BeginConsult() returns (query: Option<string>)
      requires Valid()
      modifies this
      ensures Valid()
      ensures query.None? <==> AllWhitespace(input)
      ensures query.None? ==>
                && loading == old(loading) && response == old(response)
                && displayed == old(displayed) && revealing == old(revealing) && cursor == old(cursor)
      ensures query.Some? ==>
                query.value == input && loading && response == None && displayed == [] && !revealing
      ensures input == old(input)
    {
      TrimEmptyIffBlank(input);
      if Trim(input) == [] {
        return None;
      }
      loading := true;
      response := None;
      revealing := false;
      displayed := [];
      query := Some(input);
    }

    /** The rest of `handleConsult` once the service has settled: its answer,
        or the malfunction text when it threw, becomes the response, and
        `loading` is lowered. A response different from the current one
        restarts the typing effect: the old interval is cancelled, the
        displayed text emptied and a new reveal begins at index 0 when the
        response is non-empty. An unchanged response leaves the effect alone. */
    method FinishConsult(outcome: Settled<string>)
      requires Valid()
      modifies this
      ensures Valid()
      ensures !loading && input == old(input)
      ensures response == Some(Answer(outcome))
      ensures response != old(response) ==> displayed == [] && cursor == 0
      ensures response == old(response) ==>
                displayed == old(displayed) && cursor == old(cursor) && revealing == old(revealing)
    {
      var answer := Answer(outcome);
      if Some(answer) != response {
        ghost var units := Utf16(answer);
        assert units[..0] == [];
        response := Some(answer);
        revealing := false;
        displayed := [];
        cursor := 0;
        if answer != [] {
          revealing := true;
        }
      }
      loading := false;
    }

    /** One tick of the typing interval: the code unit of the response at
        the index is appended and the index advanced; the interval clears
        itself once the index reaches the response's length. */
    method Tick()
      requires Valid() && revealing
      modifies this`displayed, this`cursor, this`revealing
      ensures Valid()
      ensures response.Some? && old(cursor) < |Utf16(response.value)|
      ensures cursor == old(cursor) + 1
      ensures displayed == old(displayed) + [Utf16(response.value)[old(cursor)]]
      ensures revealing <==> cursor < |Utf16(response.value)|
    {
      var units := Utf16(response.value);
      displayed := displayed + [units[cursor]];
      cursor := cursor + 1;
      assert units[..cursor] == units[..cursor - 1] + [units[cursor - 1]];
      if cursor >= |units| {
        revealing := false;
      }
    }

    /** `k` ticks of a running reveal: the displayed text grows to the first
        `cursor + k` code units of the response. */
    method Ticks(k: nat)
      requires Valid() && response.Some? && cursor + k <= |Utf16(response.value)|
      modifies this`displayed, this`cursor, this`revealing
      ensures Valid()
      ensures cursor == old(cursor) + k
      ensures displayed == Utf16(response.value)[..cursor]
    {
      var n := 0;
      while n < k
        invariant 0 <= n <= k && Valid()
        invariant cursor == old(cursor) + n
      {
        Tick();
        n := n + 1;
      }
    }
  }

  /** A query answered by the service and then `k` ticks of the typing
      effect: the panel shows exactly the first `k` code units of the
      answer, and once typing has stopped it shows the whole answer. A blank
      query sends nothing. */
  method ConsultAndReveal(query: string, outcome: Settled<string>, k: nat)
    returns (sent: Option<string>, shown: seq<CodeUnit>, stillTyping: bool)
    requires k <= |Utf16(Answer(outcome))|
    ensures sent.None? <==> AllWhitespace(query)
    ensures sent.Some? ==> sent == Some(query)
    ensures sent.Some? ==> shown == Utf16(Answer(outcome))[..k]
    ensures sent.Some? ==> (stillTyping <==> k < |Utf16(Answer(outcome))|)
    ensures sent.Some? && !stillTyping ==> FromUtf16(shown) == Some(Answer(outcome))
    ensures sent.None? ==> shown == [] && !stillTyping
  {
    var engine := new Engine();
    engine.SetInput(query);
    sent := engine.BeginConsult();
    if sent.Some? {
      engine.FinishConsult(outcome);
      engine.Ticks(k);
      FullReveal(Answer(outcome), k);
    }
    shown := engine.displayed;
    stillTyping := engine.revealing;
  }

  /** Once every code unit is shown, the shown units spell the answer. */
  lemma FullReveal(answer: string, k: nat)
    requires k <= |Utf16(answer)|
    ensures k == |Utf16(answer)| ==> FromUtf16(Utf16(answer)[..k]) == Some(answer)
  {
    if k == |Utf16(answer)| {
      assert Utf16(answer)[..k] == Utf16(answer);
      Utf16RoundTrip(answer);
    }
  }

  /** After as many ticks as the first `i` characters have code units, the
      panel shows exactly those `i` characters. */
  lemma RevealAtCharBoundary(answer: string, i: nat)
    requires i <= |answer|
    ensures |Utf16(answer[..i])| <= |Utf16(answer)|
    ensures Utf16(answer)[..|Utf16(answer[..i])|] == Utf16(answer[..i])
    ensures FromUtf16(Utf16(answer)[..|Utf16(answer[..i])|]) == Some(answer[..i])
  {
    assert answer == answer[..i] + answer[i..];
    Utf16Append(answer[..i], answer[i..]);
    Utf16RoundTrip(answer[..i]);
  }

  /** A character outside the Basic Multilingual Plane (an emoji, say) is
      two code units, so it takes two ticks, and after the first of them the
      panel shows half a surrogate pair, which spells no text: "ok 🙂" has
      four characters but needs five ticks. */
  lemma HalfRevealedAstral(answer: string, i: nat)
    requires i < |answer| && answer[i] as int >= 0x1_0000
    ensures |Utf16(answer[..i + 1])| == |Utf16(answer[..i])| + 2
    ensures |Utf16(answer[..i])| + 1 < |Utf16(answer)|
    ensures FromUtf16(Utf16(answer)[..|Utf16(answer[..i])| + 1]) == None
  {
    var head, c, tail := answer[..i], answer[i], answer[i + 1..];
    assert answer[..i + 1] == head + [c];
    assert answer == head + [c] + tail;
    Utf16Append(head, [c]);
    Utf16Append(head + [c], tail);
    assert Utf16([c]) == CharUnits(c) + Utf16([]);
    var shown := Utf16(answer)[..|Utf16(head)| + 1];
    assert shown == Utf16(head) + [CharUnits(c)[0]];
    DanglingHigh(head, CharUnits(c)[0]);
  }
}
