# Ron's reply pipeline, modelled in Dafny

`llm_brain.py` turns a user's message and the recent chat history into a
reply from "Ron Grover", a Hinglish-speaking persona. `reply_as_ron`:

- builds a persona blob of one to five fixed facts, chosen by keyword tests on
  the last history entry;
- splices the blob into the system prompt;
- sends that prompt, at most the last eight history entries and the user's text to a
  completion provider;
- asks the provider once more for a Hinglish rewrite when the answer holds
  Devanagari, an assistant-like phrase, or is long and punctuated;
- cleans up whitespace with two regular-expression substitutions and `strip`;
- clamps the reply to 220 characters, cutting at a space and appending `…`.

The project has five modules:

- `PyStr` (`py_str.dfy`): the Python `str` operations the pipeline uses:
  `isspace`, `lower`, `in`, `strip`, `replace`, `join` and `rsplit(" ", 1)[0]`.
  Strings are sequences of code points.
- `PyRe` (`py_re.dfy`): the two substitutions `re.sub(r"\s+\n", "\n", …)` and
  `re.sub(r"\n{3,}", "\n\n", …)`. Both follow the `re` module's leftmost,
  greedy, non-overlapping matching.
- `PersonaFacts` (`persona_facts.dfy`): the four entries of `PERSONA_DETAILS`
  that the blob quotes.
- `PromptText` (`prompt_text.dfy`): the text of `SYSTEM_PROMPT` before and
  after its `{{PERSONA_BLOB}}` placeholder. Each line is written in pieces of
  at most sixteen characters, which lets the verifier check that neither part
  holds a `{`.
- `LlmBrain` (`llm_brain.dfy`): the remaining prompt constants, `_needs_rewrite`,
  `build_persona_blob`, message assembly, the rewrite request, clean-up,
  clamp, and `reply_as_ron`.

The completion provider is a `Provider` object. It holds a function from
(call number, message list) to an optional answer, where `None` is a call
that raised. It also records every message list sent to it. `ReplyAsRon` is
proved against this oracle for every possible provider behaviour. It makes
one or two calls, never three.

Two observations come out of the proofs. Both are modelled as written.

- `CollapseAfterSubIsIdentity`: the second substitution, `\n{3,}` → `\n\n`
  (llm_brain.py:159), never changes anything. The first substitution
  (llm_brain.py:158) already leaves no whitespace before any newline, and a
  newline is itself whitespace. So every blank line is gone, and no two
  newlines remain in a row.
- `RewritePromptKeepsPlaceholder`: the rewrite request (llm_brain.py:124-129)
  sends the bare `SYSTEM_PROMPT`. The `{{PERSONA_BLOB}}` placeholder reaches
  the provider unfilled.

`Clamp` can return 221 characters: 220 characters that hold no space, plus
`…`. `ClampIdempotent` shows that clamping such a reply again gives the same
reply. `PostProcessStable` shows the same for the whole post-processing.

## Model

| member | source | states |
|---|---|---|
| `PyStr.LowerChar` | llm_brain.py:118 | `lower()` on one character: ASCII capitals become small letters, U+0130 becomes `i` followed by U+0307, U+212A becomes `k`, and the result is never empty and holds no ASCII capital |
| `PyStr.Lower` | llm_brain.py:118 | `str.lower()`: no ASCII capital letter is left, and nothing gets shorter |
| `PyStr.LowerAppend` | llm_brain.py:118 | lower-casing works character by character: `lower(a + b) == lower(a) + lower(b)` |
| `PyStr.Contains` | llm_brain.py:119 | the `in` test on strings holds exactly when the needle occurs at some index of the haystack |
| `PyStr.OccursInContext` | llm_brain.py:119 | an occurrence of a needle in `t` is still one at the shifted index in `a + t + b` |
| `PyStr.IsSpace` | llm_brain.py:158 | `str.isspace()` on one character, which is also what `\s` matches in a `str` pattern: definition, no contract; used by `strip()` and both substitutions |
| `PyStr.LStrip` | llm_brain.py:152 | `lstrip()`: the result is a suffix of the input, only whitespace is cut off, and it does not start with whitespace |
| `PyStr.RStrip` | llm_brain.py:152 | `rstrip()`: the result is a prefix of the input, only whitespace is cut off, and it does not end with whitespace |
| `PyStr.Strip` | llm_brain.py:152 | `strip()` returns a slice of its input with no whitespace at either end, and only whitespace is cut off |
| `PyStr.StripTrimmed` | llm_brain.py:159 | `strip()` leaves a string with no whitespace at either end unchanged |
| `PyStr.RSplitHead` | llm_brain.py:162 | `rsplit(" ", 1)[0]` is the prefix before the last space, or the whole string when it has no space |
| `PyStr.Join` | llm_brain.py:73 | `sep.join(parts)` is empty for no parts and starts with the first part |
| `PyStr.JoinAppend` | llm_brain.py:58-73 | appending a part and joining is joining and then adding the separator and that part: `sep.join(parts + [p]) == sep.join(parts) + sep + p` for non-empty `parts`, which is how each `facts.append` shows up in the blob |
| `PyStr.Replace` | llm_brain.py:139 | `str.replace` leaves a string without the pattern unchanged |
| `PyStr.ReplaceSplice` | llm_brain.py:139 | when the pattern occurs once, after a prefix without its first character, `replace` splices in the replacement and keeps the rest |
| `PyStr.MissingFirstNotContained` | llm_brain.py:139 | a string without the first character of a pattern does not contain the pattern |
| `PyRe.SpaceNewlineMatch` | llm_brain.py:158 | where a match of `\s+\n` at the current position ends: at a newline at index 1 or more inside the leading whitespace run, the last such newline (greedy), and no match when the run holds no such newline |
| `PyRe.SubSpaceNewline` | llm_brain.py:158 | `re.sub(r"\s+\n", "\n", s)`, leftmost and greedy: definition, no contract; properties proved in `PyRe.SubSpaceNewlineTidy`, `PyRe.SubSpaceNewlineVisible` and `PyRe.SubSpaceNewlineFixed` |
| `PyRe.SubSpaceNewlineTidy` | llm_brain.py:158 | after `re.sub(r"\s+\n", "\n", s)` no whitespace character stands right before a newline |
| `PyRe.SubSpaceNewlineVisible` | llm_brain.py:158 | that substitution removes only whitespace: the non-whitespace characters and their order are kept |
| `PyRe.SubSpaceNewlineFixed` | llm_brain.py:158 | the substitution changes nothing where no whitespace stands before a newline |
| `PyRe.CollapseNewlines` | llm_brain.py:159 | `re.sub(r"\n{3,}", "\n\n", s)`: definition, no contract; properties proved in `PyRe.CollapseNewlinesSpec` and `PyRe.CollapseNewlinesFixed` |
| `PyRe.CollapseNewlinesSpec` | llm_brain.py:159 | after `re.sub(r"\n{3,}", "\n\n", s)` there are no three newlines in a row |
| `PyRe.CollapseNewlinesFixed` | llm_brain.py:159 | that substitution changes nothing where no three newlines stand in a row |
| `PyRe.NoSpaceBeforeNewlineNoTriple` | llm_brain.py:158-159 | text with no whitespace before a newline has no three newlines in a row |
| `LlmBrain.SearchDevanagari` | llm_brain.py:43 | `DEVANAGARI_RE.search` succeeds exactly when some character is in U+0900..U+097F |
| `LlmBrain.AnyContained` | llm_brain.py:119 | `any(bad in lower for bad in BAD_PHRASES)` holds exactly when some phrase is a substring |
| `LlmBrain.NeedsRewrite` | llm_brain.py:114-122 | `_needs_rewrite` is true exactly when the text has a Devanagari character, or its lower-cased form holds a bad phrase, or it is longer than 260 and holds `.` or `,` |
| `LlmBrain.NeedsRewriteInContext` | llm_brain.py:114-122 | a text that needs a rewrite still needs one inside any longer text |
| `LlmBrain.DevanagariForcesRewrite` | llm_brain.py:115-116 | one Devanagari character forces a rewrite, whatever else the text holds |
| `LlmBrain.ShoutedPhraseForcesRewrite` | llm_brain.py:117-119 | a bad phrase is caught in upper case too: every reply that holds "AS AN AI" anywhere needs a rewrite |
| `LlmBrain.LastEntryLower` | llm_brain.py:63 | `history[-1]['content'].lower()`, or `""` for `None` or `[]`: definition, no contract; used by `LlmBrain.BlobFacts` |
| `LlmBrain.BuildPersonaBlob` | llm_brain.py:56-73 | `build_persona_blob`: the fact sentences joined with `" \| "`: definition, no contract; properties proved in `LlmBrain.BlobFacts`, `LlmBrain.BlobWithoutHistory` and `LlmBrain.BlobOpensWithPetFact` |
| `LlmBrain.FactText` | llm_brain.py:59-71 | the five fact sentences (llm_brain.py:59, 66, 68, 69, 71) with the `PERSONA_DETAILS` entries filled in: definition, no contract; used by `LlmBrain.FactTexts` |
| `LlmBrain.FactTexts` | llm_brain.py:58-72 | one sentence per chosen fact, in order |
| `LlmBrain.BlobFacts` | llm_brain.py:58-72 | the pet fact comes first; 1 to 5 facts, in strictly increasing order pet, work, ENFP, motto, origin; each optional fact is present exactly when one of its keywords is a substring of the lower-cased last entry; motto is present exactly when ENFP is |
| `LlmBrain.BlobWithoutHistory` | llm_brain.py:56-73 | with `None` or an empty history the blob is exactly the pet fact |
| `LlmBrain.BlobOpensWithPetFact` | llm_brain.py:56-73 | the blob always starts with the pet fact, and is that fact alone exactly when no other fact was chosen |
| `LlmBrain.CoffeeBringsEnfpAndMotto` | llm_brain.py:63-69 | the tests are plain substring tests on the lower-cased entry: any last entry holding "Coffee" holds "off" and brings in the ENFP and motto facts |
| `LlmBrain.SystemMessage` | llm_brain.py:139-143 | the system message with the blob replacing the placeholder: definition, no contract; used by `LlmBrain.AssembledIsWellAssembled` |
| `PromptText.HeadHasNoBrace` | llm_brain.py:18-29 | the prompt before the placeholder holds no `{` |
| `PromptText.TailHasNoBrace` | llm_brain.py:29-35 | the prompt after the placeholder holds no `{` |
| `LlmBrain.PlaceholderOccursOnce` | llm_brain.py:18-35 | no `{` stands before the placeholder, and the placeholder does not occur again after it |
| `LlmBrain.PromptSplice` | llm_brain.py:139 | `SYSTEM_PROMPT.replace("{{PERSONA_BLOB}}", blob)` is the prompt head, then `blob`, then the prompt tail, for every blob |
| `LlmBrain.SystemMessageSplice` | llm_brain.py:136-143 | the first message's text is the prompt head, the persona blob and the prompt tail |
| `LlmBrain.Frame` | llm_brain.py:141-150 | the list around a given first message: definition, no contract; its shape is proved in `LlmBrain.FrameIsFramed` |
| `LlmBrain.Assembled` | llm_brain.py:136-150 | the first message list as a value: definition, no contract; its shape is proved in `LlmBrain.AssembledIsWellAssembled` |
| `LlmBrain.FrameIsFramed` | llm_brain.py:141-150 | for any first message, the list is that message, then `history[-8:]` in order, then the user's message; it has `min(8, len(history)) + 2` entries, and `None` or `[]` adds no history |
| `LlmBrain.AssembledIsWellAssembled` | llm_brain.py:136-150 | the list `reply_as_ron` builds opens with the system prompt whose placeholder is replaced by the persona blob, and has the shape above |
| `LlmBrain.AssembleMessages` | llm_brain.py:136-150 | the list has `min(8, len(history)) + 2` messages: the system prompt with the blob replacing the placeholder (by `LlmBrain.SystemMessageSplice`, the prompt head, the blob and the prompt tail), the last at most 8 history entries in order, and the user's message last |
| `LlmBrain.RewriteMessages` | llm_brain.py:125-128 | the rewrite request: the bare system prompt, then the instruction followed by the original: definition, no contract; property proved in `LlmBrain.RewritePromptKeepsPlaceholder` |
| `LlmBrain.RewritePromptKeepsPlaceholder` | llm_brain.py:124-129 | the rewrite request's system message still holds `{{PERSONA_BLOB}}` |
| `LlmBrain.CollapseAfterSubIsIdentity` | llm_brain.py:158-159 | the `\n{3,}` substitution never changes the output of the `\s+\n` substitution |
| `LlmBrain.SliceKeepsNoSpaceBeforeNewline` | llm_brain.py:159 | a slice of text with no whitespace before a newline has none either |
| `LlmBrain.StripKeepsNoSpaceBeforeNewline` | llm_brain.py:159 | the final `strip()` keeps the absence of whitespace before a newline |
| `LlmBrain.StripKeepsVisible` | llm_brain.py:159 | `strip()` keeps every non-whitespace character, in order |
| `LlmBrain.Cleanup` | llm_brain.py:158-159 | both substitutions, then `strip()`: definition, no contract; properties proved in `LlmBrain.CleanupIsTidy`, `LlmBrain.CleanupFixesTidy` and `LlmBrain.CleanupIdempotent` |
| `LlmBrain.CleanupIsTidy` | llm_brain.py:158-159 | the cleaned reply has no whitespace at either end, none before a newline, no three newlines in a row, and the same non-whitespace characters as its input |
| `LlmBrain.CleanupFixesTidy` | llm_brain.py:158-159 | the clean-up leaves a string alone when it has no whitespace at either end and none before a newline |
| `LlmBrain.CleanupIdempotent` | llm_brain.py:158-159 | cleaning twice is cleaning once |
| `LlmBrain.Clamp` | llm_brain.py:161-162 | at most 220 characters: unchanged; longer: the part of the first 220 characters before their last space (all 220 when none) followed by `…`; never more than 221 characters, and at most 220 when those 220 characters hold a space |
| `LlmBrain.ClampKeepsTidy` | llm_brain.py:161-162 | clamping a tidy reply keeps it tidy |
| `LlmBrain.ClampIdempotent` | llm_brain.py:161-162 | clamping twice is clamping once |
| `LlmBrain.PostProcessTidy` | llm_brain.py:152-162 | whatever the provider answers, the cleaned and clamped reply has no whitespace at either end or before a newline, and at most 221 characters |
| `LlmBrain.Finish` | llm_brain.py:152-162 | the post-processing of an answer yields a reply exactly when there is an answer, and that reply is tidy and at most 221 characters long |
| `LlmBrain.PostProcessStable` | llm_brain.py:152-162 | stripping, cleaning and clamping a finished reply gives it back unchanged |
| `LlmBrain.Provider.constructor` | llm_brain.py:107-111 | a fresh provider has been called with nothing |
| `LlmBrain.Provider.Call` | llm_brain.py:107-111 | one call appends its message list to the call log and returns the oracle's answer for that call |
| `LlmBrain.RewriteToHinglish` | llm_brain.py:124-129 | `_rewrite_to_hinglish` makes exactly one call, with the system prompt and the rewrite instruction followed by the original |
| `LlmBrain.ReplyAsRon` | llm_brain.py:132-166 | one or two provider calls; the first gets the assembled list; a second, the rewrite request for the stripped first answer, is made exactly when that answer needs a rewrite; the reply is the last answer stripped, cleaned and clamped, with no whitespace at either end or before a newline, and at most 221 characters |

## Left out

- The providers `_ollama_chat`, `_openai_chat` and `_call_provider` (llm_brain.py:76-111) call external HTTP APIs. `Provider` stands for them as an oracle over (call number, messages). The Ollama newline-JSON fallback and the provider switch are not modelled.
- A provider call that raises is modelled as a `None` answer, and `ReplyAsRon` then returns `None`. In Python the exception propagates. An OpenAI answer whose content is `None`, which makes `.strip()` raise, falls under the same case.
- `log_jsonl` (llm_brain.py:48-53) and the timestamp at llm_brain.py:133 are file and clock side effects that do not change the reply.
- `load_dotenv`, environment variables and the `__main__` loop (llm_brain.py:2-15, 168-177) are configuration and console I/O.
- wa_app.py and tg_bot.py are transport glue around the pipeline and are not part of this model.
- persona_facts.py is static data. Only the four `PERSONA_DETAILS` entries the blob quotes are carried over, and `ARCHETYPE_SUMMARIES` is never read.
- History entries are modelled as role/content pairs. Extra keys in the dictionaries, and the `KeyError` for an entry without `content` (llm_brain.py:63), are not modelled.
- PyStr.LowerChar and PyStr.Lower: map ASCII capitals, U+0130 and U+212A, and keep every other character. Python's `lower()` also maps other non-ASCII letters. Those mappings never produce an ASCII letter, and every keyword and bad phrase is ASCII, so the substring tests agree with Python's.
- Strings are sequences of Unicode scalar values, so Python strings holding lone surrogates are not represented.
