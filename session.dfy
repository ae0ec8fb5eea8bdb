/**
 * The per-session state of the translator page and what one run of the page
 * script does to it (app.py:37-52, 86-87, 97-135).
 *
 * Streamlit reruns the whole script on every interaction. The two keys the
 * page keeps in `st.session_state` are modelled by `State`, where `None`
 * stands for a key that is not there yet. One run of the script is `Step`;
 * a session is a sequence of runs, `Run`. The class `SessionState` performs
 * a run statement by statement on its two fields, and `RunScript` is proved
 * to agree with `Step`.
 */
module Session {
  import opened Wrappers
  import opened Languages

  /** What tokenizing, generating and decoding a prompt yields (app.py:115-129). */
  datatype Generation = Ok(text: string) | Err(message: string)

  /** The pretrained model, as an oracle from prompt to generation. */
  type Model = string -> Generation

  /** The `source_lang_index` and `translated_text` keys of `st.session_state`. */
  datatype State = State(sourceLangIndex: Option<int>, translatedText: Option<string>)

  /** A new session: neither key is present. */
  const EmptyState: State := State(None, None)

  /** What the user did that caused this run of the script. */
  datatype Event =
    | Refresh                                   // no button pressed (first load, or the rerun after a swap or a translation)
    | SwapClicked                               // the swap button
    | TranslateClicked(edited: Option<string>)  // the translate button; None when the input area still holds its default text

  /** The message a run shows besides the rendered state; `Stopped` is an error shown just before the script stops. */
  datatype Notice = Quiet | Warning(message: string) | Error(message: string) | Stopped(message: string)

  /** The state after a run, the message it showed, and the prompt it gave the model, if any. */
  datatype RunResult = RunResult(state: State, notice: Notice, sent: Option<string>)

  /** The error shown before the script stops on an unsupported pair (app.py:104). */
  const InvalidCombinationMessage: string := "Invalid language combination for translation. This should not happen."

  /** The warning shown when the translate button is pressed with an empty text area (app.py:110). */
  function EmptyInputWarning(sourceLang: string): string {
    "Please enter some text in " + sourceLang + " to translate."
  }

  /** The error shown when generation fails with `message` (app.py:135). */
  function TranslationErrorMessage(message: string): string {
    "An error occurred during translation: " + message
  }

  /** A present `source_lang_index` is a valid selectbox index. */
  predicate ValidState(s: State) {
    s.sourceLangIndex.Some? ==> 0 <= s.sourceLangIndex.value < |AvailableLanguages|
  }

  /** The swap button's update of `source_lang_index`. */
  function SwapIndex(index: int): (swapped: int)
    ensures 0 <= index < |AvailableLanguages| ==> 0 <= swapped < |AvailableLanguages| && swapped != index
  {
    1 - index
  }

  /** `source_lang_index` defaults to 0 (English) when absent; a present value is kept. */
  function WithDefaultIndex(s: State): (r: State)
    ensures r.sourceLangIndex.Some? && r.translatedText == s.translatedText
    ensures s.sourceLangIndex.Some? ==> r == s
    ensures s.sourceLangIndex.None? ==> r.sourceLangIndex == Some(0)
  {
    if s.sourceLangIndex.None? then s.(sourceLangIndex := Some(0)) else s
  }

  /** `translated_text` defaults to "" when absent; a present value is kept. */
  function WithDefaultText(s: State): (r: State)
    ensures r.translatedText.Some? && r.sourceLangIndex == s.sourceLangIndex
    ensures s.translatedText.Some? ==> r == s
    ensures s.translatedText.None? ==> r.translatedText.value == ""
  {
    if s.translatedText.None? then s.(translatedText := Some("")) else s
  }

  /**
   * A press of the translate button with `input` in the text area: only the
   * empty string is refused; anything else goes to the model exactly once,
   * and only a successful generation replaces `translated_text`.
   */
  function Submission(s: State, sourceLang: string, prefix: string, input: string, model: Model): (r: RunResult)
    ensures r.sent.None? <==> input == ""
    ensures r.sent.Some? ==> r.sent.value == Prompt(prefix, input)
    ensures r.state.sourceLangIndex == s.sourceLangIndex
    ensures r.notice.Warning? <==> input == ""
    ensures input == "" ==> r.notice == Warning(EmptyInputWarning(sourceLang))
    ensures r.notice.Error? <==> r.sent.Some? && model(r.sent.value).Err?
    ensures r.state.translatedText != s.translatedText ==> r.sent.Some? && model(r.sent.value).Ok?
    ensures r.sent.Some? && model(r.sent.value).Ok? ==> r.state.translatedText == Some(model(r.sent.value).text)
  {
    if input == "" then
      RunResult(s, Warning(EmptyInputWarning(sourceLang)), None)
    else
      var prompt := Prompt(prefix, input);
      match model(prompt)
      case Ok(text) => RunResult(s.(translatedText := Some(text)), Quiet, Some(prompt))
      case Err(message) => RunResult(s, Error(TranslationErrorMessage(message)), Some(prompt))
  }

  /** One run of the page script, caused by `event`. */
  function Step(s: State, event: Event, model: Model): (r: RunResult)
    requires ValidState(s)
    ensures ValidState(r.state)
  {
    var s1 := WithDefaultIndex(s);
    var sourceLang := SelectedLanguage(s1.sourceLangIndex.value);
    if event.SwapClicked? then
      // the swap reruns the script at once: the rest of this run is skipped
      RunResult(s1.(sourceLangIndex := Some(SwapIndex(s1.sourceLangIndex.value))), Quiet, None)
    else
      var targetLang := TargetLanguage(sourceLang);
      var s2 := WithDefaultText(s1);
      match T5Prefix(sourceLang, targetLang)
      case None => RunResult(s2, Stopped(InvalidCombinationMessage), None)
      case Some(prefix) =>
        match event
        case Refresh => RunResult(s2, Quiet, None)
        case TranslateClicked(edited) =>
          Submission(s2, sourceLang, prefix, edited.GetOr(DefaultInputText(sourceLang)), model)
  }

  /**
   * The state after a whole sequence of runs; run `i` sees the model as
   * `models[i]`, so a prompt that failed once may succeed on a later press.
   */
  function Run(s: State, events: seq<Event>, models: seq<Model>): (r: State)
    requires ValidState(s) && |models| == |events|
    ensures ValidState(r)
    decreases |events|
  {
    if events == [] then s else Run(Step(s, events[0], models[0]).state, events[1..], models[1..])
  }

  /** How many swap presses a sequence of runs holds. */
  function SwapCount(events: seq<Event>): nat {
    if events == [] then 0 else (if events[0].SwapClicked? then 1 else 0) + SwapCount(events[1..])
  }

  /** Swapping twice restores the index. */
  lemma SwapInvolution(index: int)
    ensures SwapIndex(SwapIndex(index)) == index
  {
  }

  /** A run never reaches the invalid-combination stop. */
  lemma NoInvalidCombination(s: State, event: Event, model: Model)
    requires ValidState(s)
    ensures !Step(s, event, model).notice.Stopped?
  {
  }

  /** A rerun with no button pressed leaves an initialised session exactly as it was. */
  lemma RefreshKeepsState(s: State, model: Model)
    requires ValidState(s) && s.sourceLangIndex.Some? && s.translatedText.Some?
    ensures Step(s, Refresh, model) == RunResult(s, Quiet, None)
  {
  }

  /** Submitting the empty text warns, never reaches the model, and changes nothing. */
  lemma EmptyInputNotSent(s: State, model: Model)
    requires ValidState(s)
    ensures var r := Step(s, TranslateClicked(Some("")), model);
      r.sent.None? && r.notice.Warning? && r.state == WithDefaultText(WithDefaultIndex(s))
  {
  }

  /** Any non-empty text, whitespace-only included, reaches the model exactly once with the direction's prompt. */
  lemma NonEmptyInputSent(s: State, input: string, model: Model)
    requires ValidState(s) && input != ""
    ensures var sourceLang := SelectedLanguage(WithDefaultIndex(s).sourceLangIndex.value);
      Step(s, TranslateClicked(Some(input)), model).sent
        == Some(Prompt(T5Prefix(sourceLang, TargetLanguage(sourceLang)).value, input))
  {
  }

  /** A failed generation shows the error and leaves `translated_text` as it was. */
  lemma FailureKeepsTranslation(s: State, event: Event, model: Model)
    requires ValidState(s) && s.translatedText.Some?
    requires var r := Step(s, event, model); r.sent.Some? && model(r.sent.value).Err?
    ensures var r := Step(s, event, model);
      r.state.translatedText == s.translatedText
      && r.notice == Error(TranslationErrorMessage(model(r.sent.value).message))
  {
  }

  /** Only a successful generation changes `translated_text`, and then to the model's output. */
  lemma OnlySuccessChangesTranslation(s: State, event: Event, model: Model)
    requires ValidState(s) && s.translatedText.Some?
    ensures var r := Step(s, event, model);
      r.state.translatedText != s.translatedText ==>
        r.sent.Some? && model(r.sent.value).Ok? && r.state.translatedText == Some(model(r.sent.value).text)
  {
  }

  /** One run changes an initialised index only through the swap button. */
  lemma StepIndex(s: State, event: Event, model: Model)
    requires ValidState(s) && s.sourceLangIndex.Some?
    ensures Step(s, event, model).state.sourceLangIndex
         == Some(if event.SwapClicked? then SwapIndex(s.sourceLangIndex.value) else s.sourceLangIndex.value)
  {
  }

  /** After any sequence of runs, the index is the starting one flipped once per swap press. */
  lemma {:induction false} IndexFollowsSwaps(s: State, events: seq<Event>, models: seq<Model>)
    requires ValidState(s) && s.sourceLangIndex.Some? && |models| == |events|
    ensures Run(s, events, models).sourceLangIndex == Some((s.sourceLangIndex.value + SwapCount(events)) % 2)
    decreases |events|
  {
    if events != [] {
      var next := Step(s, events[0], models[0]).state;
      StepIndex(s, events[0], models[0]);
      IndexFollowsSwaps(next, events[1..], models[1..]);
    }
  }

  /** A new session: after its first run the index is 0, and after any runs it is the swap count's parity. */
  lemma {:induction false} IndexFromNewSession(events: seq<Event>, models: seq<Model>)
    requires events != [] && |models| == |events|
    ensures Run(EmptyState, events, models).sourceLangIndex == Some(SwapCount(events) % 2)
  {
    var r := Step(EmptyState, events[0], models[0]);
    if !events[0].SwapClicked? {
      PrefixTotal(LangEn);
    }
    IndexFollowsSwaps(r.state, events[1..], models[1..]);
  }

  /** Runs without a translate press never change a present `translated_text`. */
  lemma {:induction false} NoTranslateKeepsTranslation(s: State, events: seq<Event>, models: seq<Model>)
    requires ValidState(s) && s.translatedText.Some? && |models| == |events|
    requires forall i :: 0 <= i < |events| ==> !events[i].TranslateClicked?
    ensures Run(s, events, models).translatedText == s.translatedText
    decreases |events|
  {
    if events != [] {
      var r := Step(s, events[0], models[0]);
      PrefixTotal(SelectedLanguage(WithDefaultIndex(s).sourceLangIndex.value));
      assert r.state.translatedText == s.translatedText;
      NoTranslateKeepsTranslation(r.state, events[1..], models[1..]);
    }
  }

  /**
   * A failed generation does not poison the session: pressing translate again
   * with the same text, when the model now succeeds, stores its output.
   */
  lemma RetryAfterFailure(s: State, edited: Option<string>, failing: Model, healthy: Model)
    requires ValidState(s) && s.sourceLangIndex.Some? && s.translatedText.Some?
    requires var r := Step(s, TranslateClicked(edited), failing); r.sent.Some? && failing(r.sent.value).Err?
    requires var r := Step(s, TranslateClicked(edited), failing); healthy(r.sent.value).Ok?
    ensures var first := Step(s, TranslateClicked(edited), failing);
      var second := Step(first.state, TranslateClicked(edited), healthy);
      first.state == s && second.sent == first.sent
      && second.state.translatedText == Some(healthy(first.sent.value).text)
  {
  }

  /**
   * A new session: the first run initialises both keys; translating the
   * untouched default sends the English prompt; after a swap and its rerun,
   * translating the untouched default sends the Malay prompt.
   */
  lemma NewSessionScenario(model: Model)
    ensures Step(EmptyState, Refresh, model) == RunResult(State(Some(0), Some("")), Quiet, None)
    ensures Step(State(Some(0), Some("")), TranslateClicked(None), model).sent
         == Some("terjemah Inggeris ke Melayu: I love you.")
    ensures Step(State(Some(0), Some("")), SwapClicked, model).state == State(Some(1), Some(""))
    ensures Step(State(Some(1), Some("")), TranslateClicked(None), model).sent
         == Some("terjemah Melayu ke Inggeris: Saya sayang awak.")
  {
    PrefixTotal(LangEn);
    PrefixTotal(LangBm);
    DefaultPromptEnglish();
    DefaultPromptMalay();
  }

  /** The session state of one browser session, updated in place by each run of the script. */
  class SessionState {
    var sourceLangIndex: Option<int>
    var translatedText: Option<string>

    function Snapshot(): State
      reads this
    {
      State(sourceLangIndex, translatedText)
    }

    ghost predicate Valid()
      reads this
    {
      ValidState(Snapshot())
    }

    /** A new session holds neither key. */
    constructor ()
      ensures Valid() && Snapshot() == EmptyState
    {
      sourceLangIndex := None;
      translatedText := None;
    }

    /** Sets `source_lang_index` to 0 only when it is absent (app.py:37-38). */
    method InitSourceLangIndex()
      requires Valid()
      modifies this
      ensures Valid() && Snapshot() == WithDefaultIndex(old(Snapshot()))
    {
      if sourceLangIndex.None? {
        sourceLangIndex := Some(0);
      }
    }

    /** The swap button: flips `source_lang_index` between 0 and 1 (app.py:51). */
    method Swap()
      requires Valid() && sourceLangIndex.Some?
      modifies this
      ensures Valid()
      ensures sourceLangIndex == Some(SwapIndex(old(sourceLangIndex.value)))
      ensures translatedText == old(translatedText)
    {
      sourceLangIndex := Some(1 - sourceLangIndex.value);
    }

    /** Sets `translated_text` to "" only when it is absent (app.py:86-87). */
    method InitTranslatedText()
      requires Valid()
      modifies this
      ensures Valid() && Snapshot() == WithDefaultText(old(Snapshot()))
    {
      if translatedText.None? {
        translatedText := Some("");
      }
    }

    /** The translate button's branch (app.py:108-135), with one call of `model`. */
    method Submit(sourceLang: string, prefix: string, input: string, model: Model) returns (notice: Notice, sent: Option<string>)
      requires Valid()
      modifies this
      ensures Valid()
      ensures RunResult(Snapshot(), notice, sent) == Submission(old(Snapshot()), sourceLang, prefix, input, model)
    {
      if input == "" {
        notice, sent := Warning(EmptyInputWarning(sourceLang)), None;
      } else {
        var prompt := prefix + " " + input;
        sent := Some(prompt);
        var generation := model(prompt);
        match generation
        case Ok(text) =>
          translatedText := Some(text);
          notice := Quiet;
        case Err(message) =>
          notice := Error(TranslationErrorMessage(message));
      }
    }

    /** One run of the page script caused by `event` (app.py:37-135). */
    method RunScript(event: Event, model: Model) returns (notice: Notice, sent: Option<string>)
      requires Valid()
      modifies this
      ensures Valid()
      ensures RunResult(Snapshot(), notice, sent) == Step(old(Snapshot()), event, model)
    {
      InitSourceLangIndex();
      var sourceLang := AvailableLanguages[sourceLangIndex.value];
      if event.SwapClicked? {
        Swap();
        return Quiet, None;
      }
      var targetLang := if sourceLang == LangEn then LangBm else LangEn;
      InitTranslatedText();
      var prefix := T5Prefix(sourceLang, targetLang);
      if prefix.None? {
        return Stopped(InvalidCombinationMessage), None;
      }
      match event
      case Refresh =>
        notice, sent := Quiet, None;
      case TranslateClicked(edited) =>
        var input := if edited.Some? then edited.value else DefaultInputText(sourceLang);
        notice, sent := Submit(sourceLang, prefix.value, input, model);
    }
  }
}
