/**
  Textual escalation detectors of the terminal deployment (main.py and the knowledge agent):
  case-insensitive phrase lists, and the knowledge agent's rewrite of English replies into a
  fixed Spanish hand-off text.
 */
module Detectors {
  import opened Text

  /** Phrases in the tier-1 answer that send the query on to the knowledge agent. */
  const EscalationIndicators: seq<string> := [
    "I'll need to transfer you",
    "specialist team",
    "one of our experts",
    "need more information to assist",
    "let me connect you",
    "necesitaré transferirte",
    "voy a consultar con nuestro equipo",
    SpecialistsTeam,
    "nuestros expertos",
    "necesito más información",
    "te conectaré",
    "debo transferirte"
  ]

  /** Phrases in the knowledge agent's answer that send the query on to a human. */
  const HumanHelpIndicators: seq<string> := [
    "transferirte a un especialista humano",
    "transferirte a un humano",
    "especialista humano",
    NoSpecificInformation,
    "no tengo información específica",
    "no tengo suficiente información",
    "no puedo encontrar",
    "no he encontrado",
    "no encontré información específica",
    "no encontré",
    "no tengo la información",
    "no dispongo de información",
    "no encuentro información",
    "sin información específica",
    "no hay información específica",
    "transfer you to a human",
    "human specialist",
    "don't have enough information",
    "don't have the specific information",
    "cannot find information",
    "couldn't find",
    "don't have specific"
  ]

  const SpecialistsTeam := "equipo de especialistas"
  const NoSpecificInformation := "no tengo la información específica"

  /** What the tier-1 agent is instructed to answer when a question needs the specialists. */
  const Tier1HandoffPhrase := "Voy a consultar con nuestro " + SpecialistsTeam + " para esa pregunta."

  /** The Spanish text that replaces an English reply of the knowledge agent. */
  const OverrideText :=
    "Lo siento, " + NoSpecificInformation + " para responder a tu pregunta. "
    + "Necesitaré transferirte a un especialista humano que pueda ayudarte mejor."

  /** A reply together with the decision taken on it. */
  datatype Verdict = Verdict(response: string, escalate: bool)

  /** `any(ind.lower() in text.lower() for ind in indicators)`. */
  function AnyIndicator(text: string, indicators: seq<string>): (r: bool)
    ensures r <==> exists k :: 0 <= k < |indicators| && Contains(Lower(text), Lower(indicators[k]))
  {
    if |indicators| == 0 then false
    else Contains(Lower(text), Lower(indicators[0])) || AnyIndicator(text, indicators[1..])
  }

  /** Detection ignores the case of the text: lower-casing the reply first changes nothing. */
  lemma AnyIndicatorIgnoresCase(text: string, indicators: seq<string>)
    ensures AnyIndicator(Lower(text), indicators) == AnyIndicator(text, indicators)
  {
    LowerIdempotent(text);
  }

  /** A reply mentioning one indicator, in any case, is flagged. */
  lemma MentionFlags(text: string, indicators: seq<string>, k: nat)
    requires k < |indicators| && Contains(text, indicators[k])
    ensures AnyIndicator(text, indicators)
  {
    ContainsLower(text, indicators[k]);
  }

  /** The tier-1 verdict: the reply is passed on unchanged, with the escalation flag. */
  function SimpleVerdict(response: string): (r: Verdict)
    ensures r.response == response
    ensures r.escalate <==>
      exists k :: 0 <= k < |EscalationIndicators| && Contains(Lower(response), Lower(EscalationIndicators[k]))
  {
    Verdict(response, AnyIndicator(response, EscalationIndicators))
  }

  /** The hand-off phrase the tier-1 agent is told to use is itself recognised as an escalation. */
  lemma Tier1PhraseEscalates()
    ensures SimpleVerdict(Tier1HandoffPhrase).escalate
  {
    ContainsMiddle("Voy a consultar con nuestro ", SpecialistsTeam, " para esa pregunta.");
    assert EscalationIndicators[7] == SpecialistsTeam;
    MentionFlags(Tier1HandoffPhrase, EscalationIndicators, 7);
  }

  /** The knowledge agent's reply reads as English: the case-sensitive trigger of the rewrite. */
  predicate LooksEnglish(response: string) {
    Contains(response, "I apologize") || Contains(response, "I'm sorry") || StartsWith(response, "I ")
  }

  /** The fixed Spanish text is itself caught by the human-help indicators. */
  lemma OverrideTextNeedsHuman()
    ensures AnyIndicator(OverrideText, HumanHelpIndicators)
  {
    var before := "Lo siento, ";
    var after := " para responder a tu pregunta. "
      + "Necesitaré transferirte a un especialista humano que pueda ayudarte mejor.";
    assert OverrideText == before + NoSpecificInformation + after;
    ContainsMiddle(before, NoSpecificInformation, after);
    assert HumanHelpIndicators[3] == NoSpecificInformation;
    MentionFlags(OverrideText, HumanHelpIndicators, 3);
  }

  /**
    The knowledge-agent verdict. An English reply is replaced by the Spanish hand-off text;
    any other reply is kept. Either way the flag is exactly the indicator check on the reply
    that is returned, so a rewritten reply always escalates.
   */
  function ComplexVerdict(response: string): (r: Verdict)
    ensures LooksEnglish(response) ==> r.response == OverrideText && r.escalate
    ensures !LooksEnglish(response) ==> r.response == response
    ensures r.escalate <==> AnyIndicator(r.response, HumanHelpIndicators)
  {
    var needsHuman := AnyIndicator(response, HumanHelpIndicators);
    if LooksEnglish(response) then
      OverrideTextNeedsHuman();
      Verdict(OverrideText, true)
    else
      Verdict(response, needsHuman)
  }

  /** A reply without a capital I cannot look English. */
  lemma NoCapitalINotEnglish(text: string)
    requires forall j :: 0 <= j < |text| ==> text[j] != 'I'
    ensures !LooksEnglish(text)
  {
    forall i | 0 <= i <= |text|
      ensures !OccursAt(text, "I apologize", i) && !OccursAt(text, "I'm sorry", i)
    {
      if i < |text| {
        assert text[i] != 'I';
        if i + 11 <= |text| { assert text[i..i + 11][0] == text[i]; }
        if i + 9 <= |text| { assert text[i..i + 9][0] == text[i]; }
      }
    }
    if |text| >= 2 {
      assert text[..2][0] == text[0];
    }
  }

  /**
    The rewrite is case-sensitive, unlike the indicator check: a reply written in lower case
    is never replaced, whatever it says.
   */
  lemma LowerCaseReplyIsKept(text: string)
    ensures ComplexVerdict(Lower(text)).response == Lower(text)
  {
    NoCapitalINotEnglish(Lower(text));
  }
}
