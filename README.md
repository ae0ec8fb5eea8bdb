# English ↔ Bahasa Malaysia translator page: session logic

A Dafny model of the decision logic in `app.py`, a Streamlit page that
translates between English and Bahasa Malaysia with a pretrained T5 model.
The model covers the following:

- **The two languages** (`Languages`). The source selectbox offers "English" and "Bahasa Malaysia".
- **The target language.** It is the complement of the source.
- **The T5 task prefix.** There is one prefix per direction, and an invalid pair stops the script.
- **The prompt.** It is the prefix, one space, then the input as entered.
- **The default input text.** It depends on the source language.
- **The session state** (`Session`). `st.session_state` holds two keys:
  - `source_lang_index` is set to 0 when absent and flipped by the swap button;
  - `translated_text` is set to `""` when absent and replaced only by a successful generation.

  A missing key is `None` in `State`.
- **Runs of the page script.** Streamlit reruns the whole script on every interaction:
  - `Step` is one run, caused by an `Event`: a plain rerun, the swap button, or the translate button;
  - `Run` is a whole session, a sequence of runs.
- **The class `SessionState`.** It performs a run statement by statement on its two fields.
  `RunScript` is proved to agree with `Step`.
- **The translate branch.** It has three outcomes:
  - the empty string shows a warning and does not reach the model;
  - a successful generation replaces `translated_text`;
  - a failing one shows an error and keeps `translated_text`.

  In both non-empty cases the model is called exactly once. `RunResult.sent` is the prompt it was given.

Tokenizing, beam-search generation and decoding are one opaque oracle, `Model = string -> Generation`.
It returns `Ok(text)` or `Err(message)`, and a raised exception becomes `Err`.

Points of the code that the model keeps exactly:

- Only the empty string is refused (`if not input_text`, app.py:109). Whitespace-only input such as `"   "` is sent to the model (`NonEmptyInputSent`).
- Nothing records the last error. The error is only shown for that run, and `translated_text` is the only result the session keeps.
- There is no lock, queue or timeout around the model call.
- A failed generation does not prevent a later one. Each run may see a different answer from the model, so pressing translate again with the same text can succeed (`RetryAfterFailure`).

## Model

| member | source | states |
|---|---|---|
| `Languages.SelectedLanguage` | app.py:28-45 | the selectbox value for index 0 or 1 is one of the two languages, and it is English exactly for index 0 |
| `Languages.TargetLanguage` | app.py:55 | the target is always one of the two languages; for a selectable source it differs from the source, and source and target together are exactly the two languages |
| `Languages.T5Prefix` | app.py:98-105 | a prefix exists exactly for the pairs English→Malay and Malay→English; the English→Malay prefix is chosen exactly when the source is English, and the Malay→English prefix exactly when the source is Malay |
| `Languages.Prompt` | app.py:113 | the prompt has length `|prefix| + 1 + |input|`, starts with the prefix, has a space after it, and ends with the unmodified input |
| `Languages.DefaultInputText` | app.py:72-75 | the default input is never empty, so it always passes the empty-input guard; it is "I love you." for English and "Saya sayang awak." for any other source |
| `Languages.PrefixTotal` | app.py:98-103 | every selectable source, paired with its complement, has a prefix, so the stop branch is dead |
| `Languages.PromptDeterminesRequest` | app.py:98-113 | two requests give the same prompt only if they have the same source language and the same input |
| `Languages.DefaultPromptEnglish` | app.py:72-113 | English with the untouched default input gives the prompt "terjemah Inggeris ke Melayu: I love you." |
| `Languages.DefaultPromptMalay` | app.py:72-113 | Bahasa Malaysia with the untouched default input gives the prompt "terjemah Melayu ke Inggeris: Saya sayang awak." |
| `Session.SwapIndex` | app.py:51 | the swap maps index 0 to 1 and 1 to 0: the result stays a valid index and always differs from the input |
| `Session.SwapInvolution` | app.py:51 | swapping twice restores the original index |
| `Session.WithDefaultIndex` | app.py:37-38 | afterwards `source_lang_index` is present; an existing value is kept, an absent one becomes 0; `translated_text` is untouched |
| `Session.WithDefaultText` | app.py:86-87 | afterwards `translated_text` is present; an existing value is kept, an absent one becomes ""; `source_lang_index` is untouched |
| `Session.Submission` | app.py:108-135 | the model is called if and only if the input is non-empty, and then with `Prompt(prefix, input)`; a warning is shown if and only if the input is empty, and it names the source language; an error is shown if and only if the model's answer was an error; `translated_text` changes only on a successful generation, and then becomes its text; the index never changes |
| `Session.Step` | app.py:37-135 | every run keeps `source_lang_index` a valid index (0 or 1) |
| `Session.Run` | app.py:37-52 | over any sequence of runs, each with its own answer from the model, `source_lang_index` stays a valid index |
| `Session.NoInvalidCombination` | app.py:55-105 | no run ever reaches the invalid-combination error and stop |
| `Session.RefreshKeepsState` | app.py:37-87 | a rerun with no button pressed leaves an initialised session unchanged, so existing values survive a rerun |
| `Session.EmptyInputNotSent` | app.py:109-110 | submitting "" shows a warning, never reaches the model, and changes nothing besides the defaults |
| `Session.NonEmptyInputSent` | app.py:109-113 | any non-empty input, whitespace-only included, is sent once, with the prompt for the current direction |
| `Session.FailureKeepsTranslation` | app.py:134-135 | a failed generation leaves `translated_text` as it was and shows the error message with the failure's text |
| `Session.OnlySuccessChangesTranslation` | app.py:128-131 | `translated_text` changes only when the model was called and succeeded, and then it becomes the model's output |
| `Session.StepIndex` | app.py:37-51 | one run leaves a present index unchanged unless it is a swap press, which flips it |
| `Session.IndexFollowsSwaps` | app.py:37-51 | after any sequence of runs, the index is the starting index flipped once per swap press |
| `Session.IndexFromNewSession` | app.py:37-51 | in a new session, after at least one run the index is the parity of the number of swap presses, so it starts at English |
| `Session.NoTranslateKeepsTranslation` | app.py:86-131 | runs without a translate press never change an existing `translated_text` |
| `Session.RetryAfterFailure` | app.py:112-135 | a failed generation leaves the session unchanged; pressing translate again with the same text sends the same prompt, and if the model now succeeds its output is stored |
| `Session.NewSessionScenario` | app.py:37-113 | a new session's first run sets index 0 and text ""; the untouched default then sends the English prompt; a swap sets index 1, and the untouched default then sends the Malay prompt |
| `Session.SessionState.constructor` | app.py:37-38 | a new session holds neither key |
| `Session.SessionState.InitSourceLangIndex` | app.py:37-38 | the new state is the old one with the index defaulted (`WithDefaultIndex`) |
| `Session.SessionState.Swap` | app.py:50-52 | the index becomes `SwapIndex` of the old index, stays valid, and `translated_text` is unchanged |
| `Session.SessionState.InitTranslatedText` | app.py:86-87 | the new state is the old one with the text defaulted (`WithDefaultText`) |
| `Session.SessionState.Submit` | app.py:108-135 | the new state, notice and prompt sent are those of `Submission` on the old state |
| `Session.SessionState.RunScript` | app.py:37-135 | the new state, notice and prompt sent are those of `Step` on the old state, and the index stays valid |

## Left out

- Rendering is not modelled: the page config, columns, widgets, markdown, placeholder text and the text areas. The notices (warning and error) are kept only as values.
- `st.rerun()` ends the current run; the rerun it triggers is the next `Refresh` event of the session.
- The source selectbox is modelled as showing `available_languages[source_lang_index]`. A direct pick in the keyed selectbox, without the swap button, is not modelled. The lemmas about the target and the prefix hold for any selectable source.
- The text area is modelled as holding either the default text (`TranslateClicked(None)`) or what the user typed. Its keyed widget state across reruns is not modelled.
- Model loading and caching are not modelled (`st.cache_resource`, `AutoTokenizer`, `AutoModelForSeq2SeqLM`). They are foreign calls that fetch artifacts over the network or from disk.
- Generation is modelled as one `Model` per run. Within a run the same prompt always gives the same answer.
- The oracle `Model` stands in for tokenization, beam-search generation, decoding, the truncation and length limits (512, 150), the beam width (5), early stopping and CUDA placement. These are numeric work done by an external library.
- The `torch.classes.__path__` workaround is not modelled. It is import-time environment patching.
- The source has no mutual exclusion between sessions, no timeout and no automatic retry, so none is modelled.
