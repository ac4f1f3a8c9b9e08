/** The reading of the advisor's reply in `generate_ai_recommendations`: a
    line-by-line state machine that collects a prediction paragraph and a list of
    bullet recommendations, and the defaults used when the advisor is not
    configured, fails, or yields nothing usable. The advisor itself is a
    parameter: its reply text, or the message of the error it raised. */
module Advisory {
  import opened Wrappers
  import opened Text

  /** A line announcing the prediction section: its upper-case form contains
      `PREDICCIÓN` or `PREDICCION`. */
  predicate IsPredictionHeader(line: string) {
    Contains(Upper(line), "PREDICCI\U{D3}N") || Contains(Upper(line), "PREDICCION")
  }

  /** A line announcing the recommendation section: its upper-case form contains
      `RECOMENDACIONES` or `RECOMENDACION`. */
  predicate IsRecommendationHeader(line: string) {
    Contains(Upper(line), "RECOMENDACIONES") || Contains(Upper(line), "RECOMENDACION")
  }

  /** A raw line that, once stripped, is a section header. */
  predicate IsHeader(raw: string) {
    IsPredictionHeader(Strip(raw)) || IsRecommendationHeader(Strip(raw))
  }

  /** A line starting with one of the bullets `•`, `-` or `*`. */
  predicate IsBullet(line: string) {
    StartsWith(line, '\U{2022}') || StartsWith(line, '-') || StartsWith(line, '*')
  }

  /** `line.lstrip('•-* ').strip()`: what is left of a line once its leading
      bullet characters and its surrounding whitespace are gone. */
  function CleanBullet(line: string): (item: string)
    ensures item == [] || (!IsSpace(item[0]) && !IsSpace(item[|item| - 1]))
  {
    Strip(LStripChars(line, {'\U{2022}', '-', '*', ' '}))
  }

  /** The two section flags of the parser. */
  datatype Flags = Flags(inPrediction: bool, inRecommendations: bool)

  /** The flags a section header sets. */
  function HeaderFlags(line: string): Flags {
    if IsPredictionHeader(line) then Flags(true, false) else Flags(false, true)
  }

  /** The parser state after some lines: the flags and what was collected. */
  datatype ParseState = ParseState(flags: Flags, prediction: string, recommendations: seq<string>)

  const Initial: ParseState := ParseState(Flags(false, false), "", [])

  /** One iteration of the parsing loop on a raw line, as the loop is written:
      blank lines are skipped, headers switch the flags, a line in the prediction
      section not starting with `*` is added to the prediction followed by a
      space, and otherwise a bullet line in the recommendation section adds its
      cleaned text when that is not empty. */
  function Step(st: ParseState, raw: string): ParseState {
    var line := Strip(raw);
    if line == [] then st
    else if IsPredictionHeader(line) then st.(flags := Flags(true, false))
    else if IsRecommendationHeader(line) then st.(flags := Flags(false, true))
    else OnText(st, line)
  }

  /** The loop on a stripped line that is neither blank nor a header. */
  function OnText(st: ParseState, line: string): ParseState {
    if st.flags.inPrediction && line != [] && !StartsWith(line, '*') then
      st.(prediction := st.prediction + line + " ")
    else if st.flags.inRecommendations && IsBullet(line) then
      var item := CleanBullet(line);
      if item != [] then st.(recommendations := st.recommendations + [item]) else st
    else st
  }

  /** `ai_response.strip().split('\n')`. */
  function Lines(text: string): seq<string> {
    Split(Strip(text), '\n')
  }

  // ---------------------------------------------------------------------------
  // The sections, defined without the parser's state

  /** The flags after `lines`: only header lines change them. */
  function FlagsAfter(lines: seq<string>): Flags
    decreases |lines|
  {
    if lines == [] then Flags(false, false)
    else
      var last := lines[|lines| - 1];
      if IsHeader(last) then HeaderFlags(Strip(last)) else FlagsAfter(lines[..|lines| - 1])
  }

  /** A line adds to the prediction when it is in the prediction section, is not
      blank, is not a header and does not start with `*`. */
  predicate InPrediction(before: seq<string>, raw: string) {
    && FlagsAfter(before).inPrediction
    && Strip(raw) != []
    && !IsHeader(raw)
    && !StartsWith(Strip(raw), '*')
  }

  /** A line adds a recommendation when it is in the recommendation section, is a
      bullet line, is not a header and has text after its bullet. */
  predicate InRecommendations(before: seq<string>, raw: string) {
    && FlagsAfter(before).inRecommendations
    && !IsHeader(raw)
    && IsBullet(Strip(raw))
    && CleanBullet(Strip(raw)) != []
  }

  /** The prediction text: each prediction line, stripped and followed by a space. */
  function PredictionOf(lines: seq<string>): string
    decreases |lines|
  {
    if lines == [] then ""
    else
      var init := lines[..|lines| - 1];
      var last := lines[|lines| - 1];
      PredictionOf(init) + (if InPrediction(init, last) then Strip(last) + " " else "")
  }

  /** The recommendations: the cleaned text of each recommendation line, in order. */
  function RecommendationsOf(lines: seq<string>): seq<string>
    decreases |lines|
  {
    if lines == [] then []
    else
      var init := lines[..|lines| - 1];
      var last := lines[|lines| - 1];
      RecommendationsOf(init) + Added(init, last)
  }

  /** What one line adds to the recommendations: its cleaned text when it is a
      recommendation line, nothing otherwise. */
  function Added(before: seq<string>, raw: string): seq<string> {
    if InRecommendations(before, raw) then [CleanBullet(Strip(raw))] else []
  }

  /** The parser is never in both sections at once. */
  lemma {:induction false} FlagsExclusive(lines: seq<string>)
    ensures !(FlagsAfter(lines).inPrediction && FlagsAfter(lines).inRecommendations)
    decreases |lines|
  {
    if lines != [] {
      FlagsExclusive(lines[..|lines| - 1]);
    }
  }

  /** The section is the one named by the last header: after a header followed
      only by non-header lines, the flags are the ones that header set. */
  lemma {:induction false} FlagsFollowLastHeader(lines: seq<string>, j: nat)
    requires j < |lines| && IsHeader(lines[j])
    requires forall k :: j < k < |lines| ==> !IsHeader(lines[k])
    ensures FlagsAfter(lines) == HeaderFlags(Strip(lines[j]))
    decreases |lines|
  {
    if j < |lines| - 1 {
      var init := lines[..|lines| - 1];
      assert init[j] == lines[j];
      FlagsFollowLastHeader(init, j);
    }
  }

  /** Before any header, no line belongs to a section. */
  lemma {:induction false} FlagsWithoutHeader(lines: seq<string>)
    requires forall k :: 0 <= k < |lines| ==> !IsHeader(lines[k])
    ensures FlagsAfter(lines) == Flags(false, false)
    decreases |lines|
  {
    if lines != [] {
      FlagsWithoutHeader(lines[..|lines| - 1]);
    }
  }

  /** The sections of `lines` as a parser state. */
  function Sections(lines: seq<string>): ParseState {
    ParseState(FlagsAfter(lines), PredictionOf(lines), RecommendationsOf(lines))
  }

  /** The sections of some lines and one more, from the sections of the lines. */
  lemma SectionsSnoc(init: seq<string>, last: string)
    ensures FlagsAfter(init + [last])
            == if IsHeader(last) then HeaderFlags(Strip(last)) else FlagsAfter(init)
    ensures PredictionOf(init + [last])
            == PredictionOf(init) + (if InPrediction(init, last) then Strip(last) + " " else "")
    ensures RecommendationsOf(init + [last]) == RecommendationsOf(init) + Added(init, last)
  {
    var lines := init + [last];
    assert lines[..|lines| - 1] == init && lines[|lines| - 1] == last;
  }

  /** One step of the loop takes the sections of some lines to the sections of
      those lines and one more. */
  lemma StepMatchesSections(init: seq<string>, last: string)
    ensures Step(Sections(init), last) == Sections(init + [last])
  {
    SectionsSnoc(init, last);
    if Strip(last) == [] {
      StepOnBlank(init, last);
    } else if IsHeader(last) {
      StepOnHeader(init, last);
    } else {
      StepOnText(init, last);
    }
  }

  lemma StepOnBlank(init: seq<string>, last: string)
    requires Strip(last) == []
    ensures Step(Sections(init), last) == Sections(init)
    ensures !IsHeader(last) && !InPrediction(init, last) && Added(init, last) == []
  {
    BlankIsNotHeader(last);
  }

  lemma StepOnHeader(init: seq<string>, last: string)
    requires Strip(last) != [] && IsHeader(last)
    ensures Step(Sections(init), last) == Sections(init).(flags := HeaderFlags(Strip(last)))
    ensures !InPrediction(init, last) && Added(init, last) == []
  {
  }

  lemma StepOnText(init: seq<string>, last: string)
    requires Strip(last) != [] && !IsHeader(last)
    ensures Step(Sections(init), last)
            == Sections(init).(prediction := PredictionOf(init) + (if InPrediction(init, last) then Strip(last) + " " else ""),
                               recommendations := RecommendationsOf(init) + Added(init, last))
  {
    assert Step(Sections(init), last) == OnText(Sections(init), Strip(last));
    OnTextMatchesSections(init, last);
  }

  lemma OnTextMatchesSections(init: seq<string>, last: string)
    requires Strip(last) != [] && !IsHeader(last)
    ensures OnText(Sections(init), Strip(last))
            == Sections(init).(prediction := PredictionOf(init) + (if InPrediction(init, last) then Strip(last) + " " else ""),
                               recommendations := RecommendationsOf(init) + Added(init, last))
  {
    var line := Strip(last);
    FlagsExclusive(init);
    OnTextByFlags(Sections(init), line);
    InPredictionOnText(init, last);
    AddedOnText(init, last);
  }

  /** `OnText` in terms of the flags alone, when they are not both set. */
  lemma OnTextByFlags(st: ParseState, line: string)
    requires line != [] && !(st.flags.inPrediction && st.flags.inRecommendations)
    ensures OnText(st, line)
            == st.(prediction := st.prediction + (if st.flags.inPrediction && !StartsWith(line, '*') then line + " " else ""),
                   recommendations := st.recommendations +
                     (if st.flags.inRecommendations && IsBullet(line) && CleanBullet(line) != [] then [CleanBullet(line)] else []))
  {
  }

  lemma InPredictionOnText(init: seq<string>, last: string)
    requires Strip(last) != [] && !IsHeader(last)
    ensures InPrediction(init, last) == (FlagsAfter(init).inPrediction && !StartsWith(Strip(last), '*'))
  {
  }

  lemma AddedOnText(init: seq<string>, last: string)
    requires !IsHeader(last)
    ensures Added(init, last)
            == if FlagsAfter(init).inRecommendations && IsBullet(Strip(last)) && CleanBullet(Strip(last)) != []
               then [CleanBullet(Strip(last))] else []
  {
  }

  /** A blank line is not a header. */
  lemma BlankIsNotHeader(raw: string)
    requires Strip(raw) == []
    ensures !IsHeader(raw)
  {
    assert Upper(Strip(raw)) == [];
  }

  /** A non-empty item with no surrounding whitespace. */
  predicate CleanItem(item: string) {
    item != [] && !IsSpace(item[0]) && !IsSpace(item[|item| - 1])
  }

  /** Every recommendation is non-empty and carries no surrounding whitespace. */
  lemma {:induction false} RecommendationsAreClean(lines: seq<string>)
    ensures forall i :: 0 <= i < |RecommendationsOf(lines)| ==> CleanItem(RecommendationsOf(lines)[i])
    decreases |lines|
  {
    if lines != [] {
      var init := lines[..|lines| - 1];
      var before := RecommendationsOf(init);
      var added := Added(init, lines[|lines| - 1]);
      RecommendationsAreClean(init);
      AddedIsClean(init, lines[|lines| - 1]);
      AllConcat(CleanItem, before, added);
    }
  }

  /** A recommendation line adds a clean item. */
  lemma AddedIsClean(before: seq<string>, raw: string)
    ensures forall i :: 0 <= i < |Added(before, raw)| ==> CleanItem(Added(before, raw)[i])
  {
  }

  /** A word found in the upper-case form of a suffix is found in the whole. */
  lemma UpperContainsSuffix(s: string, n: nat, w: string)
    requires n <= |s| && Contains(Upper(s[n..]), w)
    ensures Contains(Upper(s), w)
  {
    UpperDrop(s, n);
    ContainsSuffix(Upper(s), n, w);
  }

  /** A word found in the upper-case form of a prefix is found in the whole. */
  lemma UpperContainsPrefix(s: string, n: nat, w: string)
    requires n <= |s| && Contains(Upper(s[..n]), w)
    ensures Contains(Upper(s), w)
  {
    UpperTake(s, n);
    ContainsPrefix(Upper(s), n, w);
  }

  /** Stripping whitespace cannot make a word appear. */
  lemma StripKeepsWords(s: string, w: string)
    requires Contains(Upper(Strip(s)), w)
    ensures Contains(Upper(s), w)
  {
    var l := LStrip(s);
    var r := Strip(s);
    assert r == l[..|r|];
    UpperContainsPrefix(l, |r|, w);
    assert l == s[|s| - |l|..];
    UpperContainsSuffix(s, |s| - |l|, w);
  }

  /** Cleaning a bullet line cannot make a word appear. */
  lemma CleanBulletKeepsWords(line: string, w: string)
    requires Contains(Upper(CleanBullet(line)), w)
    ensures Contains(Upper(line), w)
  {
    var l := LStripChars(line, {'\U{2022}', '-', '*', ' '});
    StripKeepsWords(l, w);
    assert l == line[|line| - |l|..];
    UpperContainsSuffix(line, |line| - |l|, w);
  }

  /** A word absent from a line is absent from its cleaned text. */
  lemma CleanBulletLacksWord(line: string, w: string)
    requires !Contains(Upper(line), w)
    ensures !Contains(Upper(CleanBullet(line)), w)
  {
    if Contains(Upper(CleanBullet(line)), w) {
      CleanBulletKeepsWords(line, w);
    }
  }

  /** The cleaned text of a line that is not a header is not a header either. */
  lemma CleanBulletNotHeader(raw: string)
    requires !IsHeader(raw)
    ensures !IsPredictionHeader(CleanBullet(Strip(raw)))
    ensures !IsRecommendationHeader(CleanBullet(Strip(raw)))
  {
    var line := Strip(raw);
    CleanBulletLacksWord(line, "PREDICCI\U{D3}N");
    CleanBulletLacksWord(line, "PREDICCION");
    CleanBulletLacksWord(line, "RECOMENDACIONES");
    CleanBulletLacksWord(line, "RECOMENDACION");
  }

  /** No recommendation mentions a section header word: a line containing one
      is a header and is never copied. */
  lemma {:induction false} RecommendationsHaveNoHeaderWords(lines: seq<string>)
    ensures forall i :: 0 <= i < |RecommendationsOf(lines)| ==> NotHeaderText(RecommendationsOf(lines)[i])
    decreases |lines|
  {
    if lines != [] {
      var init := lines[..|lines| - 1];
      var before := RecommendationsOf(init);
      var added := Added(init, lines[|lines| - 1]);
      RecommendationsHaveNoHeaderWords(init);
      AddedIsNotHeader(init, lines[|lines| - 1]);
      AllConcat(NotHeaderText, before, added);
    }
  }

  /** A property of every item of two lists holds of every item of their
      concatenation. */
  lemma AllConcat(p: string -> bool, a: seq<string>, b: seq<string>)
    requires forall i :: 0 <= i < |a| ==> p(a[i])
    requires forall i :: 0 <= i < |b| ==> p(b[i])
    ensures forall i :: 0 <= i < |a + b| ==> p((a + b)[i])
  {
    forall i | 0 <= i < |a + b| ensures p((a + b)[i]) {
      if i >= |a| { assert (a + b)[i] == b[i - |a|]; }
    }
  }

  /** Text that mentions no section header word. */
  predicate NotHeaderText(item: string) {
    !IsPredictionHeader(item) && !IsRecommendationHeader(item)
  }

  /** A recommendation line adds an item that mentions no header word. */
  lemma AddedIsNotHeader(before: seq<string>, raw: string)
    ensures forall i :: 0 <= i < |Added(before, raw)| ==> NotHeaderText(Added(before, raw)[i])
  {
    if InRecommendations(before, raw) {
      CleanBulletNotHeader(raw);
    }
  }

  // ---------------------------------------------------------------------------
  // The parser as the loop it is, and the replies with their defaults

  /** The parsing loop of `generate_ai_recommendations` over the reply's lines. */
  method ParseAdvisorLines(lines: seq<string>) returns (prediction: string, recommendations: seq<string>)
    ensures prediction == PredictionOf(lines)
    ensures recommendations == RecommendationsOf(lines)
  {
    prediction := "";
    recommendations := [];
    var inPrediction := false;
    var inRecommendations := false;
    for i := 0 to |lines|
      invariant ParseState(Flags(inPrediction, inRecommendations), prediction, recommendations) == Sections(lines[..i])
    {
      assert Step(Sections(lines[..i]), lines[i]) == Sections(lines[..i + 1]) by {
        StepMatchesSections(lines[..i], lines[i]);
        assert lines[..i] + [lines[i]] == lines[..i + 1];
      }
      var line := Strip(lines[i]);
      if line == [] {
        continue;
      }
      if IsPredictionHeader(line) {
        inPrediction := true;
        inRecommendations := false;
        continue;
      } else if IsRecommendationHeader(line) {
        inPrediction := false;
        inRecommendations := true;
        continue;
      }
      if inPrediction && line != [] && !StartsWith(line, '*') {
        prediction := prediction + line + " ";
      } else if inRecommendations && IsBullet(line) {
        var item := CleanBullet(line);
        if item != [] {
          recommendations := recommendations + [item];
        }
      }
    }
    assert lines[..|lines|] == lines;
  }

  /** What the advisor did: it is not configured, it raised an error with a
      message, or it replied with text. */
  datatype AdvisorReply = Unconfigured | Raised(message: string) | Replied(text: string)

  /** The result of `generate_ai_recommendations`; the raw reply is kept when
      there was one. */
  datatype Advice = Advice(prediction: string, recommendations: seq<string>, rawResponse: Option<string>)

  const NotAvailable: string := "IA no disponible"
  const ConfigureAdvisor: string := "Configure Gemini API para obtener recomendaciones personalizadas"
  const InProgress: string := "An\U{E1}lisis en progreso"
  const AskExperts: string := "Consulte con expertos locales para recomendaciones espec\U{ED}ficas"
  const PredictionFailed: string := "Error al generar predicci\U{F3}n"

  function Min(a: int, b: int): int { if a < b then a else b }

  /** The advice for each kind of reply. The prediction and the list are never
      empty, and no recommendation is empty. */
  function AdviceOf(reply: AdvisorReply): (advice: Advice)
    ensures advice.prediction != []
    ensures |advice.recommendations| >= 1
    ensures forall i :: 0 <= i < |advice.recommendations| ==> advice.recommendations[i] != []
    ensures reply.Replied? && RecommendationsOf(Lines(reply.text)) != [] ==>
              advice.recommendations == RecommendationsOf(Lines(reply.text))
    ensures reply.Replied? && Strip(PredictionOf(Lines(reply.text))) != [] ==>
              advice.prediction == Strip(PredictionOf(Lines(reply.text)))
    ensures reply.Replied? && RecommendationsOf(Lines(reply.text)) == [] ==> advice.recommendations == [AskExperts]
    ensures reply.Replied? && Strip(PredictionOf(Lines(reply.text))) == [] ==> advice.prediction == InProgress
    ensures advice.rawResponse.Some? <==> reply.Replied?
    ensures reply.Replied? ==> advice.rawResponse == Some(reply.text)
    ensures reply.Unconfigured? ==> advice == Advice(NotAvailable, [ConfigureAdvisor], None)
    ensures reply.Raised? ==>
              advice == Advice(PredictionFailed, ["Error: " + reply.message[..Min(100, |reply.message|)]], None)
  {
    match reply
    case Unconfigured => Advice(NotAvailable, [ConfigureAdvisor], None)
    case Raised(message) =>
      Advice(PredictionFailed, ["Error: " + message[..Min(100, |message|)]], None)
    case Replied(text) =>
      var lines := Lines(text);
      var prediction := Strip(PredictionOf(lines));
      var recommendations := RecommendationsOf(lines);
      RecommendationsAreClean(lines);
      Advice(if prediction != [] then prediction else InProgress,
             if recommendations != [] then recommendations else [AskExperts],
             Some(text))
  }

  /** `generate_ai_recommendations` once the advisor's reply is known. */
  method GenerateRecommendations(reply: AdvisorReply) returns (advice: Advice)
    ensures advice == AdviceOf(reply)
  {
    match reply {
      case Unconfigured =>
        advice := Advice(NotAvailable, [ConfigureAdvisor], None);
      case Raised(message) =>
        advice := Advice(PredictionFailed, ["Error: " + message[..Min(100, |message|)]], None);
      case Replied(text) =>
        var prediction, recommendations := ParseAdvisorLines(Lines(text));
        var stripped := Strip(prediction);
        advice := Advice(if stripped != [] then stripped else InProgress,
                         if recommendations != [] then recommendations else [AskExperts],
                         Some(text));
    }
  }
}
