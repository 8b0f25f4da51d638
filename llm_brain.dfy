/**
 * The reply pipeline of llm_brain.py: the persona blob, the system prompt it
 * is spliced into, the message list sent to the completion provider, the
 * rewrite check with its single rewrite call, the whitespace clean-up and
 * the 220-character clamp.
 */
module LlmBrain {
  import opened PyStr
  import opened PyRe
  import PersonaFacts
  import opened PromptText

  /** One chat message, the dictionary {"role": ..., "content": ...}. */
  datatype Msg = Msg(role: string, content: string)

  // ===== Base system prompt =====

  /** The marker in the system prompt that the persona blob replaces. */
  const Placeholder: string := "{{PERSONA_BLOB}}"

  const SystemPrompt: string := PromptHead + Placeholder + PromptTail

  // ===== The rewrite check =====

  /** Phrases that give a reply away as formal or assistant-like; matched against the lower-cased reply. */
  const BadPhrases: seq<string> := [
    "assist you", "how can i assist", "i am an ai", "as an ai", "chatbot", "i am here to help",
    "let us", "let's explore", "i am functioning", "meaningful conversation", "further together"
  ]

  /** Longer replies that hold a full stop or a comma count as too long. */
  const RewriteLengthLimit: nat := 260

  /** The Devanagari block, U+0900 to U+097F. */
  predicate IsDevanagari(c: char)
  {
    '\U{0900}' <= c <= '\U{097F}'
  }

  /** `DEVANAGARI_RE.search(text)` succeeds. */
  function SearchDevanagari(text: string): (found: bool)
    ensures found <==> exists i :: 0 <= i < |text| && IsDevanagari(text[i])
  {
    if text == [] then false
    else if IsDevanagari(text[0]) then true
    else
      var found := SearchDevanagari(text[1..]);
      assert found ==> exists i :: 0 <= i < |text| && IsDevanagari(text[i]) by {
        if found {
          var i :| 0 <= i < |text| - 1 && IsDevanagari(text[1..][i]);
          assert text[i + 1] == text[1..][i];
        }
      }
      assert (exists i :: 0 <= i < |text| && IsDevanagari(text[i])) ==> found by {
        if exists i :: 0 <= i < |text| && IsDevanagari(text[i]) {
          var i :| 0 <= i < |text| && IsDevanagari(text[i]);
          assert i != 0 && text[1..][i - 1] == text[i];
        }
      }
      found
  }

  /** `any(p in hay for p in phrases)`. */
  function AnyContained(phrases: seq<string>, hay: string): (found: bool)
    ensures found <==> exists k :: 0 <= k < |phrases| && Contains(hay, phrases[k])
  {
    if phrases == [] then false
    else if Contains(hay, phrases[0]) then true
    else
      var found := AnyContained(phrases[1..], hay);
      assert found ==> exists k :: 0 <= k < |phrases| && Contains(hay, phrases[k]) by {
        if found {
          var k :| 0 <= k < |phrases| - 1 && Contains(hay, phrases[1..][k]);
          assert phrases[k + 1] == phrases[1..][k];
        }
      }
      assert (exists k :: 0 <= k < |phrases| && Contains(hay, phrases[k])) ==> found by {
        if exists k :: 0 <= k < |phrases| && Contains(hay, phrases[k]) {
          var k :| 0 <= k < |phrases| && Contains(hay, phrases[k]);
          assert k != 0 && phrases[1..][k - 1] == phrases[k];
        }
      }
      found
  }

  /**
   * `_needs_rewrite(text)`: the text holds a Devanagari character, or its
   * lower-cased form holds one of the bad phrases, or it is longer than 260
   * characters and holds a full stop or a comma.
   */
  function NeedsRewrite(text: string): (r: bool)
    ensures r <==>
      || (exists i :: 0 <= i < |text| && IsDevanagari(text[i]))
      || (exists k :: 0 <= k < |BadPhrases| && Contains(Lower(text), BadPhrases[k]))
      || (|text| > RewriteLengthLimit && ('.' in text || ',' in text))
  {
    if SearchDevanagari(text) then true
    else
      var lower := Lower(text);
      if AnyContained(BadPhrases, lower) then true
      else if |text| > RewriteLengthLimit && ('.' in text || ',' in text) then true
      else false
  }

  /** A text that needs a rewrite still needs one when more text is put around it. */
  lemma NeedsRewriteInContext(a: string, t: string, b: string)
    requires NeedsRewrite(t)
    ensures NeedsRewrite(a + t + b)
  {
    var s := a + t + b;
    if exists i :: 0 <= i < |t| && IsDevanagari(t[i]) {
      var i :| 0 <= i < |t| && IsDevanagari(t[i]);
      assert s[|a| + i] == t[i];
    } else if exists k :: 0 <= k < |BadPhrases| && Contains(Lower(t), BadPhrases[k]) {
      var k :| 0 <= k < |BadPhrases| && Contains(Lower(t), BadPhrases[k]);
      var i :| OccursAt(Lower(t), BadPhrases[k], i);
      LowerAppend(a, t);
      LowerAppend(a + t, b);
      OccursInContext(Lower(a), Lower(t), Lower(b), BadPhrases[k], i);
      assert Contains(Lower(s), BadPhrases[k]);
    } else {
      if '.' in t {
        var i :| 0 <= i < |t| && t[i] == '.';
        assert s[|a| + i] == '.';
      } else {
        var i :| 0 <= i < |t| && t[i] == ',';
        assert s[|a| + i] == ',';
      }
    }
  }

  /** One Devanagari character anywhere is enough, whatever else the text holds. */
  lemma DevanagariForcesRewrite(a: string, c: char, b: string)
    requires IsDevanagari(c)
    ensures NeedsRewrite(a + [c] + b)
  {
    assert (a + [c] + b)[|a|] == c;
  }

  /** "AS AN AI" lower-cases to one of the bad phrases. */
  lemma ShoutedPhraseCaught()
    ensures NeedsRewrite("AS AN AI")
  {
    assert Lower("AS AN AI") == BadPhrases[3];
    assert OccursAt(Lower("AS AN AI"), BadPhrases[3], 0);
  }

  /** A bad phrase is caught in any letter case, wherever it stands in the reply. */
  lemma ShoutedPhraseForcesRewrite(a: string, b: string)
    ensures NeedsRewrite(a + "AS AN AI" + b)
  {
    ShoutedPhraseCaught();
    NeedsRewriteInContext(a, "AS AN AI", b);
  }

  // ===== The persona blob =====

  /** The five facts the blob can quote, declared in the order the blob lists them. */
  datatype Fact = Pet | Work | Enfp | Motto | Origin

  /** The place of a fact in the blob's fixed order. */
  function Rank(f: Fact): nat
  {
    match f
    case Pet => 0
    case Work => 1
    case Enfp => 2
    case Motto => 3
    case Origin => 4
  }

  /** The sentence the blob uses for a fact. */
  function FactText(f: Fact): string
  {
    match f
    case Pet => "Ron lives with a " + PersonaFacts.Pet + "."
    case Work => "Ron works as a " + PersonaFacts.Work + "."
    case Enfp => "Ron's a chaotic-in-a-cute-way ENFP who validates feelings."
    case Motto => "Ron's life motto is '" + PersonaFacts.Motto + "'."
    case Origin => "Ron's family backstory: " + PersonaFacts.Origin + "."
  }

  function FactTexts(facts: seq<Fact>): (texts: seq<string>)
    ensures |texts| == |facts|
    ensures forall i :: 0 <= i < |facts| ==> texts[i] == FactText(facts[i])
  {
    if facts == [] then [] else [FactText(facts[0])] + FactTexts(facts[1..])
  }

  const FactSeparator: string := " | "

  /** `history[-1]['content'].lower() if history else ""`. */
  function LastEntryLower(history: Option<seq<Msg>>): string
  {
    if history.Some? && history.value != [] then Lower(history.value[|history.value| - 1].content)
    else ""
  }

  /**
   * The `facts` list of `build_persona_blob`, given the lower-cased last
   * history entry: the pet fact first, then each further fact whose
   * keywords occur in `last`, in the fixed order work, ENFP, motto, origin.
   */
  function BlobFacts(last: string): (facts: seq<Fact>)
    ensures 1 <= |facts| <= 5 && facts[0] == Pet
    ensures forall i :: 0 < i < |facts| ==> Rank(facts[i - 1]) < Rank(facts[i])
    ensures Work in facts <==> Contains(last, "stand-up") || Contains(last, "comic")
    ensures Enfp in facts <==> Contains(last, "mood") || Contains(last, "off")
    ensures Motto in facts <==> Enfp in facts
    ensures Origin in facts <==> Contains(last, "dad") || Contains(last, "mom") || Contains(last, "family")
  {
    var work := Contains(last, "stand-up") || Contains(last, "comic");
    var mood := Contains(last, "mood") || Contains(last, "off");
    var family := Contains(last, "dad") || Contains(last, "mom") || Contains(last, "family");
    var facts := [Pet];
    var facts := if work then facts + [Work] else facts;
    assert Rank(facts[|facts| - 1]) <= 1 && Pet in facts && Enfp !in facts && Motto !in facts && Origin !in facts;
    var facts := if mood then facts + [Enfp, Motto] else facts;
    assert Rank(facts[|facts| - 1]) <= 3 && Pet in facts && Origin !in facts;
    var facts := if family then facts + [Origin] else facts;
    facts
  }

  /** `build_persona_blob(history)`: the texts of the chosen facts joined by " | ". */
  function BuildPersonaBlob(history: Option<seq<Msg>>): string
  {
    Join(FactSeparator, FactTexts(BlobFacts(LastEntryLower(history))))
  }

  /** Without history, or with an empty one, the blob is the pet fact alone. */
  lemma BlobWithoutHistory()
    ensures BuildPersonaBlob(None) == FactText(Pet)
    ensures BuildPersonaBlob(Some([])) == FactText(Pet)
  {
    assert LastEntryLower(None) == [] && LastEntryLower(Some([])) == [];
    assert BlobFacts([]) == [Pet];
    assert FactTexts([Pet]) == [FactText(Pet)];
  }

  /**
   * The blob always opens with the pet fact, and is nothing more exactly when
   * the last entry mentions none of the keywords.
   */
  lemma BlobOpensWithPetFact(history: Option<seq<Msg>>)
    ensures FactText(Pet) <= BuildPersonaBlob(history)
    ensures BuildPersonaBlob(history) == FactText(Pet) <==> |BlobFacts(LastEntryLower(history))| == 1
  {
  }

  /**
   * Plain substring tests: "coffee" holds "off", so a last entry that mentions
   * coffee anywhere, in any letter case, brings in the ENFP and motto facts.
   */
  lemma CoffeeBringsEnfpAndMotto(a: string, b: string)
    ensures Enfp in BlobFacts(Lower(a + "Coffee" + b))
    ensures Motto in BlobFacts(Lower(a + "Coffee" + b))
  {
    LowerAppend(a, "Coffee");
    LowerAppend(a + "Coffee", b);
    assert OccursAt(Lower("Coffee"), "off", 1);
    OccursInContext(Lower(a), Lower("Coffee"), Lower(b), "off", 1);
    assert Contains(Lower(a + "Coffee" + b), "off");
  }

  // ===== Message assembly =====

  /** `reply_as_ron` passes on at most this many of the latest history entries. */
  const HistoryWindow: nat := 8

  /** The first message: the system prompt with the persona blob in place of the placeholder. */
  function SystemMessage(history: Option<seq<Msg>>): Msg
  {
    Msg("system", Replace(SystemPrompt, Placeholder, BuildPersonaBlob(history)))
  }

  /**
   * The placeholder occurs once in the prompt, after a head without any `{`,
   * so replacing it splices the blob between the head and the tail.
   */
  lemma PromptSplice(blob: string)
    ensures Replace(SystemPrompt, Placeholder, blob) == PromptHead + blob + PromptTail
  {
    PlaceholderOccursOnce();
    ReplaceSplice(PromptHead, Placeholder, PromptTail, blob);
  }

  /** The premises of the splice: no `{` before the placeholder, and no placeholder after it. */
  lemma PlaceholderOccursOnce()
    ensures Placeholder != [] && Placeholder[0] !in PromptHead && !Contains(PromptTail, Placeholder)
  {
    HeadHasNoBrace();
    TailHasNoBrace();
    assert Placeholder[0] == '{';
    MissingFirstNotContained(PromptTail, Placeholder);
  }

  /** The first message's text is the prompt head, the persona blob and the prompt tail. */
  lemma SystemMessageSplice(history: Option<seq<Msg>>)
    ensures SystemMessage(history) == Msg("system", PromptHead + BuildPersonaBlob(history) + PromptTail)
  {
    PromptSplice(BuildPersonaBlob(history));
  }

  /**
   * A message list framed the way `reply_as_ron` frames it: `system` first,
   * then the last (at most eight) history entries in their order, then the
   * user's text.
   */
  ghost predicate Framed(messages: seq<Msg>, system: Msg, userText: string, history: Option<seq<Msg>>)
  {
    var h := if history.Some? then history.value else [];
    var k := if |h| < HistoryWindow then |h| else HistoryWindow;
    && |messages| == k + 2
    && messages[0] == system
    && messages[1..k + 1] == h[|h| - k..]
    && messages[k + 1] == Msg("user", userText)
  }

  /** The message list `reply_as_ron` sends first. */
  ghost predicate WellAssembled(messages: seq<Msg>, userText: string, history: Option<seq<Msg>>)
  {
    Framed(messages, SystemMessage(history), userText, history)
  }

  /** llm_brain.py:141-150 as a value, for a given first message. */
  function Frame(system: Msg, userText: string, history: Option<seq<Msg>>): seq<Msg>
  {
    var h := if history.Some? then history.value else [];
    var start := if |h| > HistoryWindow then |h| - HistoryWindow else 0;
    [system] + h[start..] + [Msg("user", userText)]
  }

  function Assembled(userText: string, history: Option<seq<Msg>>): seq<Msg>
  {
    Frame(SystemMessage(history), userText, history)
  }

  lemma FrameIsFramed(system: Msg, userText: string, history: Option<seq<Msg>>)
    ensures Framed(Frame(system, userText, history), system, userText, history)
  {
    var h := if history.Some? then history.value else [];
    var start := if |h| > HistoryWindow then |h| - HistoryWindow else 0;
    var l := Frame(system, userText, history);
    assert l[1..|h| - start + 1] == h[start..];
  }

  lemma AssembledIsWellAssembled(userText: string, history: Option<seq<Msg>>)
    ensures WellAssembled(Assembled(userText, history), userText, history)
  {
    FrameIsFramed(SystemMessage(history), userText, history);
  }

  /** llm_brain.py:136-150: the blob is spliced into the prompt and the list is built by appending. */
  method AssembleMessages(userText: string, history: Option<seq<Msg>>) returns (messages: seq<Msg>)
    ensures messages == Assembled(userText, history)
    ensures WellAssembled(messages, userText, history)
  {
    var personaBlob := BuildPersonaBlob(history);
    var finalSystemPrompt := Replace(SystemPrompt, Placeholder, personaBlob);
    var system := Msg("system", finalSystemPrompt);
    messages := [system];
    if history.Some? && history.value != [] {
      var h := history.value;
      var start := if |h| > HistoryWindow then |h| - HistoryWindow else 0;
      messages := messages + h[start..];
    }
    messages := messages + [Msg("user", userText)];
    assert messages == Frame(system, userText, history);
    AssembledIsWellAssembled(userText, history);
  }

  // ===== The rewrite request =====

  const RewriteInstruction: string :=
    "Rewrite this in Hinglish (Roman), Gen-Z, short (1\U{2013}3 sentences), casual emojis max 2. No Devanagari:\n"

  /** The two messages `_rewrite_to_hinglish(original)` sends. */
  function RewriteMessages(original: string): seq<Msg>
  {
    [Msg("system", SystemPrompt), Msg("user", RewriteInstruction + original)]
  }

  /**
   * The rewrite request carries the bare system prompt, so the placeholder
   * reaches the provider unreplaced.
   */
  lemma RewritePromptKeepsPlaceholder(original: string)
    ensures Contains(RewriteMessages(original)[0].content, Placeholder)
  {
    assert OccursAt(SystemPrompt, Placeholder, |PromptHead|);
  }

  // ===== Post-processing =====

  /** llm_brain.py:158-159: both substitutions, then `strip()`. */
  function Cleanup(raw: string): string
  {
    Strip(CollapseNewlines(SubSpaceNewline(raw)))
  }

  /** No whitespace at either end and none right before a newline. */
  ghost predicate Tidy(s: string)
  {
    Trimmed(s) && NoSpaceBeforeNewline(s)
  }

  lemma SliceKeepsNoSpaceBeforeNewline(s: string, i: nat, j: nat)
    requires i <= j <= |s| && NoSpaceBeforeNewline(s)
    ensures NoSpaceBeforeNewline(s[i..j])
  {
    var r := s[i..j];
    forall k | 0 < k < |r| && r[k] == '\n' ensures !IsSpace(r[k - 1]) {
      assert r[k] == s[i + k] && r[k - 1] == s[i + k - 1];
    }
  }

  lemma StripKeepsNoSpaceBeforeNewline(s: string)
    requires NoSpaceBeforeNewline(s)
    ensures NoSpaceBeforeNewline(Strip(s))
  {
    var l := LStrip(s);
    SliceKeepsNoSpaceBeforeNewline(s, |s| - |l|, |s|);
    SliceKeepsNoSpaceBeforeNewline(l, 0, |RStrip(l)|);
  }

  lemma LStripKeepsVisible(s: string)
    ensures Visible(LStrip(s)) == Visible(s)
  {
    var l := LStrip(s);
    var i := |s| - |l|;
    assert s == s[..i] + l;
    VisibleAppend(s[..i], l);
    VisibleOfSpace(s[..i]);
  }

  lemma RStripKeepsVisible(s: string)
    ensures Visible(RStrip(s)) == Visible(s)
  {
    var r := RStrip(s);
    assert s == r + s[|r|..];
    VisibleAppend(r, s[|r|..]);
    VisibleOfSpace(s[|r|..]);
  }

  /** `strip` removes whitespace only, so it keeps the visible characters. */
  lemma StripKeepsVisible(s: string)
    ensures Visible(Strip(s)) == Visible(s)
  {
    LStripKeepsVisible(s);
    RStripKeepsVisible(LStrip(s));
  }

  /**
   * `re.sub(r"\n{3,}", "\n\n", ...)` never finds anything to replace: the
   * substitution before it has already removed every whitespace character
   * in front of a newline, and a newline is whitespace.
   */
  lemma CollapseAfterSubIsIdentity(raw: string)
    ensures CollapseNewlines(SubSpaceNewline(raw)) == SubSpaceNewline(raw)
  {
    SubSpaceNewlineTidy(raw);
    NoSpaceBeforeNewlineNoTriple(SubSpaceNewline(raw));
    CollapseNewlinesFixed(SubSpaceNewline(raw));
  }

  /**
   * The cleaned reply has no whitespace at either end, none before a
   * newline and no three newlines in a row, and it keeps every character
   * that is not whitespace, in order.
   */
  lemma CleanupIsTidy(raw: string)
    ensures Tidy(Cleanup(raw))
    ensures NoTripleNewline(Cleanup(raw))
    ensures Visible(Cleanup(raw)) == Visible(raw)
  {
    var s := SubSpaceNewline(raw);
    CollapseAfterSubIsIdentity(raw);
    SubSpaceNewlineTidy(raw);
    SubSpaceNewlineVisible(raw);
    StripKeepsNoSpaceBeforeNewline(s);
    NoSpaceBeforeNewlineNoTriple(Strip(s));
    StripKeepsVisible(s);
  }

  /** The tidy strings are exactly the ones the clean-up leaves alone. */
  lemma CleanupFixesTidy(s: string)
    requires Tidy(s)
    ensures Cleanup(s) == s
  {
    SubSpaceNewlineFixed(s);
    NoSpaceBeforeNewlineNoTriple(s);
    CollapseNewlinesFixed(s);
    StripTrimmed(s);
  }

  /** Cleaning a cleaned reply changes nothing. */
  lemma CleanupIdempotent(raw: string)
    ensures Cleanup(Cleanup(raw)) == Cleanup(raw)
  {
    CleanupIsTidy(raw);
    CleanupFixesTidy(Cleanup(raw));
  }

  const MaxReplyLength: nat := 220

  /** U+2026, the one-character ellipsis. */
  const Ellipsis: char := '\U{2026}'

  /**
   * llm_brain.py:161-162: a reply of at most 220 characters is kept; a longer one
   * is cut at the last space of its first 220 characters (or at 220 when
   * there is none) and ends in an ellipsis.
   */
  function Clamp(reply: string): (r: string)
    ensures |reply| <= MaxReplyLength ==> r == reply
    ensures |reply| > MaxReplyLength ==>
      && 1 <= |r| <= MaxReplyLength + 1 && r[|r| - 1] == Ellipsis
      && r[..|r| - 1] == reply[..|r| - 1]
      && (' ' in reply[..MaxReplyLength] ==>
            |r| <= MaxReplyLength && reply[|r| - 1] == ' ' && ' ' !in reply[|r|..MaxReplyLength])
      && (' ' !in reply[..MaxReplyLength] ==> |r| == MaxReplyLength + 1)
    ensures |r| <= MaxReplyLength + 1
  {
    if |reply| > MaxReplyLength then RSplitHead(reply[..MaxReplyLength], ' ') + [Ellipsis]
    else reply
  }

  /** Clamping a tidy reply keeps it tidy: the cut never falls before the first character. */
  lemma ClampKeepsTidy(reply: string)
    requires Tidy(reply)
    ensures Tidy(Clamp(reply))
  {
    var r := Clamp(reply);
    if |reply| > MaxReplyLength {
      var n := |r| - 1;
      assert n >= 1;
      assert r[0] == reply[0];
      forall k | 0 < k < |r| && r[k] == '\n' ensures !IsSpace(r[k - 1]) {
        assert k < n && r[k] == reply[k] && r[k - 1] == reply[k - 1];
      }
    }
  }

  /**
   * Clamping twice is clamping once, even for the 221-character result of a
   * reply with no space in its first 220 characters.
   */
  lemma ClampIdempotent(reply: string)
    ensures Clamp(Clamp(reply)) == Clamp(reply)
  {
    var r := Clamp(reply);
    if |reply| > MaxReplyLength && ' ' !in reply[..MaxReplyLength] {
      assert r[..MaxReplyLength] == reply[..MaxReplyLength];
      assert r == r[..MaxReplyLength] + [Ellipsis];
    }
  }

  /** The reply that leaves the post-processing is tidy and at most 221 characters long. */
  lemma PostProcessTidy(raw: string)
    ensures Tidy(Clamp(Cleanup(raw))) && |Clamp(Cleanup(raw))| <= MaxReplyLength + 1
  {
    CleanupIsTidy(raw);
    ClampKeepsTidy(Cleanup(raw));
  }

  /**
   * Running the post-processing of llm_brain.py:152-162 over a finished reply
   * gives the same reply back.
   */
  lemma PostProcessStable(raw: string)
    ensures var reply := Clamp(Cleanup(Strip(raw)));
      Clamp(Cleanup(Strip(reply))) == reply
  {
    var cleaned := Cleanup(Strip(raw));
    var reply := Clamp(cleaned);
    CleanupIsTidy(Strip(raw));
    ClampKeepsTidy(cleaned);
    StripTrimmed(reply);
    CleanupFixesTidy(reply);
    ClampIdempotent(cleaned);
  }

  /**
   * llm_brain.py:152-162 after the provider has answered: the answer is stripped,
   * cleaned and clamped; None stands for a call that raised.
   */
  function Finish(answer: Option<string>): (reply: Option<string>)
    ensures reply.Some? <==> answer.Some?
    ensures reply.Some? ==> Tidy(reply.value) && |reply.value| <= MaxReplyLength + 1
  {
    if answer.None? then None
    else
      PostProcessTidy(Strip(answer.value));
      Some(Clamp(Cleanup(Strip(answer.value))))
  }

  // ===== The provider and the pipeline =====

  /**
   * The completion provider, seen from outside: the text it returns for its
   * n-th call with a given message list (None when the call raises), and
   * the list of every message list sent to it so far.
   */
  class Provider {
    const answer: (nat, seq<Msg>) -> Option<string>
    var calls: seq<seq<Msg>>

    constructor (answer: (nat, seq<Msg>) -> Option<string>)
      ensures this.answer == answer && calls == []
    {
      this.answer := answer;
      calls := [];
    }

    /** `_call_provider(messages)`. */
    method Call(messages: seq<Msg>) returns (text: Option<string>)
      modifies this
      ensures calls == old(calls) + [messages]
      ensures text == answer(|old(calls)|, messages)
    {
      text := answer(|calls|, messages);
      calls := calls + [messages];
    }
  }

  /** `_rewrite_to_hinglish(original)`: one provider call with the rewrite request. */
  method RewriteToHinglish(provider: Provider, original: string) returns (text: Option<string>)
    modifies provider
    ensures provider.calls == old(provider.calls) + [RewriteMessages(original)]
    ensures text == provider.answer(|old(provider.calls)|, RewriteMessages(original))
  {
    text := provider.Call(RewriteMessages(original));
  }

  /**
   * `reply_as_ron(user_text, history)`. The first provider call gets the
   * assembled message list; a second one, the rewrite request, follows
   * exactly when the stripped first answer needs a rewrite, and its answer
   * is taken without a further check. The reply is the last answer,
   * stripped, cleaned and clamped. None stands for a provider call that
   * raised.
   */
  method ReplyAsRon(provider: Provider, userText: string, history: Option<seq<Msg>>)
    returns (reply: Option<string>)
    modifies provider
    ensures var n := |old(provider.calls)|;
      && n < |provider.calls| <= n + 2
      && provider.calls[..n] == old(provider.calls)
      && provider.calls[n] == Assembled(userText, history)
    ensures var n := |old(provider.calls)|;
      var first := provider.answer(n, provider.calls[n]);
      && (first.None? ==> |provider.calls| == n + 1)
      && (first.Some? ==> (|provider.calls| == n + 2 <==> NeedsRewrite(Strip(first.value))))
      && (|provider.calls| == n + 2 ==> first.Some? && provider.calls[n + 1] == RewriteMessages(Strip(first.value)))
    ensures var n := |old(provider.calls)|;
      && (|provider.calls| == n + 1 ==> reply == Finish(provider.answer(n, provider.calls[n])))
      && (|provider.calls| == n + 2 ==> reply == Finish(provider.answer(n + 1, provider.calls[n + 1])))
    ensures reply.Some? ==> Tidy(reply.value) && |reply.value| <= MaxReplyLength + 1
  {
    ghost var n := |provider.calls|;
    var messages := AssembleMessages(userText, history);
    var answer := provider.Call(messages);
    assert provider.calls[n] == messages;
    if answer.None? {
      return None;
    }
    var raw := Strip(answer.value);
    if NeedsRewrite(raw) {
      assert |provider.calls| == n + 1;
      answer := RewriteToHinglish(provider, raw);
      assert provider.calls[n] == messages && provider.calls[n + 1] == RewriteMessages(raw);
      assert answer == provider.answer(n + 1, provider.calls[n + 1]);
    }
    reply := Finish(answer);
  }
}
