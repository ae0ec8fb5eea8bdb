/**
 * The two languages of the English / Bahasa Malaysia translator page, the
 * direction of translation, the T5 task prefix for each direction and the
 * prompt handed to the model (app.py:25-28, 40-45, 55, 72-75, 97-105, 113).
 */
module Languages {
  import opened Wrappers

  const LangEn: string := "English"
  const LangBm: string := "Bahasa Malaysia"

  /** The options of the source-language selectbox, in display order. */
  const AvailableLanguages: seq<string> := [LangEn, LangBm]

  /** T5 task prefixes, one per direction of translation. */
  const PrefixEnToBm: string := "terjemah Inggeris ke Melayu:"
  const PrefixBmToEn: string := "terjemah Melayu ke Inggeris:"

  /** The language the source selectbox shows when its index is `index`. */
  function SelectedLanguage(index: int): (lang: string)
    requires 0 <= index < |AvailableLanguages|
    ensures lang in AvailableLanguages
    ensures lang == LangEn <==> index == 0
  {
    AvailableLanguages[index]
  }

  /** The target language: whichever of the two the source is not. */
  function TargetLanguage(source: string): (target: string)
    ensures target in AvailableLanguages
    ensures source in AvailableLanguages ==> target != source
    ensures source in AvailableLanguages ==> multiset{source, target} == multiset(AvailableLanguages)
  {
    if source == LangEn then LangBm else LangEn
  }

  /**
   * The T5 prefix for the pair (source, target), or None for a pair that is
   * not one of the two supported directions (the page then shows an error
   * and stops).
   */
  function T5Prefix(source: string, target: string): (prefix: Option<string>)
    ensures prefix.Some? <==> (source == LangEn && target == LangBm) || (source == LangBm && target == LangEn)
    ensures prefix.Some? ==> (prefix.value == PrefixEnToBm <==> source == LangEn)
    ensures prefix.Some? ==> (prefix.value == PrefixBmToEn <==> source == LangBm)
  {
    if source == LangEn && target == LangBm then Some(PrefixEnToBm)
    else if source == LangBm && target == LangEn then Some(PrefixBmToEn)
    else None
  }

  /** The prompt: the prefix, one space, then the input exactly as entered. */
  function Prompt(prefix: string, input: string): (prompt: string)
    ensures |prompt| == |prefix| + 1 + |input|
    ensures prompt[..|prefix|] == prefix
    ensures prompt[|prefix|] == ' '
    ensures prompt[|prefix| + 1..] == input
  {
    prefix + " " + input
  }

  /** The text the input area starts with for the given source language. */
  function DefaultInputText(source: string): (text: string)
    ensures text != ""
    ensures source == LangEn ==> text == "I love you."
    ensures source != LangEn ==> text == "Saya sayang awak."
  {
    if source == LangEn then "I love you." else "Saya sayang awak."
  }

  /** Every selectable source language, paired with its complement, has a prefix: the stop branch is dead. */
  lemma PrefixTotal(source: string)
    requires source in AvailableLanguages
    ensures T5Prefix(source, TargetLanguage(source)).Some?
  {
  }

  /** Prompts of different requests differ: the prompt determines both the direction and the input. */
  lemma PromptDeterminesRequest(source1: string, input1: string, source2: string, input2: string)
    requires source1 in AvailableLanguages && source2 in AvailableLanguages
    requires Prompt(T5Prefix(source1, TargetLanguage(source1)).value, input1)
          == Prompt(T5Prefix(source2, TargetLanguage(source2)).value, input2)
    ensures source1 == source2 && input1 == input2
  {
  }

  /** The prompt sent for English when the input area still holds its default text. */
  lemma DefaultPromptEnglish()
    ensures Prompt(T5Prefix(LangEn, TargetLanguage(LangEn)).value, DefaultInputText(LangEn))
         == "terjemah Inggeris ke Melayu: I love you."
  {
  }

  /** The prompt sent for Bahasa Malaysia when the input area still holds its default text. */
  lemma DefaultPromptMalay()
    ensures Prompt(T5Prefix(LangBm, TargetLanguage(LangBm)).value, DefaultInputText(LangBm))
         == "terjemah Melayu ke Inggeris: Saya sayang awak."
  {
  }
}
