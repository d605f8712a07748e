/**
 * The client-side token reconciliation state machine of a speaking
 * participant (src/lib/hooks/useSessionTranscribe.ts).
 *
 * The speech engine hands the hook two growing token lists: the non-final
 * (preview) tokens, replaced on every update, and the final tokens, which only
 * grow while a recording runs. Each effect run of the hook is one method call
 * here. Three pieces of state survive between runs: the key of the last
 * preview broadcast, the final-token list seen by the last final pass (only
 * its length is used, as a cursor), and an original-language final batch that
 * is waiting for its translation.
 */
module Transcribe {
  import opened Common

  // ---------------------------------------------------------------------
  // The engine's token contract and configuration
  // ---------------------------------------------------------------------

  datatype TranslationStatus = NoStatus | Original | Translation

  datatype Token = Token(text: string, isFinal: bool, status: TranslationStatus, language: Option<string>)

  datatype TranslationConfig =
    | OneWayConfig(target_language: string)
    | TwoWayConfig(language_a: string, language_b: string)

  /** The hook's arguments on one render: who is speaking, the translation
      configuration, and whether the two callbacks were supplied. */
  datatype HookParams = HookParams(
    participantId: string,
    participantName: string,
    config: Option<TranslationConfig>,
    hasOnBroadcast: bool,
    hasOnFinalTranscript: bool)

  /** The payload handed to `onBroadcast`. */
  datatype Broadcast = Broadcast(
    participantId: string,
    participantName: string,
    text: string,
    translatedText: Option<string>,
    sourceLanguage: Option<string>,
    targetLanguage: Option<string>,
    timestamp: int)

  /** The payload handed to `onFinalTranscript`. */
  datatype FinalTranscript = FinalTranscript(
    originalText: string,
    translatedText: Option<string>,
    sourceLanguage: Option<string>,
    targetLanguage: Option<string>)

  datatype PendingTranscript = PendingTranscript(originalText: string, sourceLanguage: Option<string>, timestamp: int)

  // ---------------------------------------------------------------------
  // Partition of a batch into original and translated text
  // ---------------------------------------------------------------------

  predicate IsTranslation(t: Token) {
    t.status == Translation
  }

  function OriginalTokens(ts: seq<Token>): seq<Token> {
    Filter(ts, (t: Token) => !IsTranslation(t))
  }

  function TranslatedTokens(ts: seq<Token>): seq<Token> {
    Filter(ts, IsTranslation)
  }

  /** `tokens.map((t) => t.text).join('')`. */
  function Texts(ts: seq<Token>): string {
    if ts == [] then "" else ts[0].text + Texts(ts[1..])
  }

  function OriginalText(ts: seq<Token>): string {
    Texts(OriginalTokens(ts))
  }

  function TranslatedText(ts: seq<Token>): string {
    Texts(TranslatedTokens(ts))
  }

  /** The language of the first original token, if there is one. */
  function SourceLanguage(ts: seq<Token>): Option<string> {
    var orig := OriginalTokens(ts);
    if orig == [] then None else orig[0].language
  }

  lemma {:induction false} TextsAppend(a: seq<Token>, b: seq<Token>)
    ensures Texts(a + b) == Texts(a) + Texts(b)
  {
    if a == [] {
      assert a + b == b;
    } else {
      assert (a + b)[1..] == a[1..] + b;
      TextsAppend(a[1..], b);
    }
  }

  /** The two groups split the batch: every token lands in exactly one of
      them. */
  lemma {:induction false} PartitionCovers(ts: seq<Token>)
    ensures multiset(OriginalTokens(ts)) + multiset(TranslatedTokens(ts)) == multiset(ts)
    ensures |OriginalTokens(ts)| + |TranslatedTokens(ts)| == |ts|
  {
    if ts != [] {
      PartitionCovers(ts[1..]);
      assert ts == [ts[0]] + ts[1..];
      assert multiset(ts) == multiset([ts[0]]) + multiset(ts[1..]);
    }
  }

  /** Together the two texts are exactly as long as all the text of the
      batch. */
  lemma {:induction false} PartitionTextLength(ts: seq<Token>)
    ensures |OriginalText(ts)| + |TranslatedText(ts)| == |Texts(ts)|
  {
    if ts != [] {
      PartitionTextLength(ts[1..]);
      var t := ts[0];
      if IsTranslation(t) {
        assert TranslatedTokens(ts) == [t] + TranslatedTokens(ts[1..]);
        assert ([t] + TranslatedTokens(ts[1..]))[1..] == TranslatedTokens(ts[1..]);
        assert TranslatedText(ts) == t.text + TranslatedText(ts[1..]);
        assert OriginalTokens(ts) == [] + OriginalTokens(ts[1..]) == OriginalTokens(ts[1..]);
      } else {
        assert OriginalTokens(ts) == [t] + OriginalTokens(ts[1..]);
        assert ([t] + OriginalTokens(ts[1..]))[1..] == OriginalTokens(ts[1..]);
        assert OriginalText(ts) == t.text + OriginalText(ts[1..]);
        assert TranslatedTokens(ts) == [] + TranslatedTokens(ts[1..]) == TranslatedTokens(ts[1..]);
      }
    }
  }

  /** The partition of a concatenation is the concatenation of the partitions,
      so splitting the final tokens at the cursor splits the texts there. */
  lemma {:induction false} PartitionAppend(a: seq<Token>, b: seq<Token>)
    ensures OriginalText(a + b) == OriginalText(a) + OriginalText(b)
    ensures TranslatedText(a + b) == TranslatedText(a) + TranslatedText(b)
  {
    FilterAppend(a, b, (t: Token) => !IsTranslation(t));
    FilterAppend(a, b, IsTranslation);
    TextsAppend(OriginalTokens(a), OriginalTokens(b));
    TextsAppend(TranslatedTokens(a), TranslatedTokens(b));
  }

  // ---------------------------------------------------------------------
  // Target language
  // ---------------------------------------------------------------------

  /** Two-way flip: the configured language that the source is not. */
  function OtherLanguage(a: string, b: string, source: Option<string>): string {
    if source == Some(a) then b else a
  }

  /** The final path: no requirement on the source language. */
  function FinalTargetLanguage(config: Option<TranslationConfig>, source: Option<string>): Option<string> {
    match config
    case None => None
    case Some(OneWayConfig(target)) => Some(target)
    case Some(TwoWayConfig(a, b)) => Some(OtherLanguage(a, b, source))
  }

  /** The preview path: two-way needs a (non-empty) source language. */
  function PreviewTargetLanguage(config: Option<TranslationConfig>, source: Option<string>): Option<string> {
    match config
    case None => None
    case Some(OneWayConfig(target)) => Some(target)
    case Some(TwoWayConfig(a, b)) => if Truthy(source) then Some(OtherLanguage(a, b, source)) else None
  }

  /** The local display path: both modes need a (non-empty) source language. */
  function DisplayTargetLanguage(config: Option<TranslationConfig>, source: Option<string>): Option<string> {
    if config.Some? && Truthy(source) then FinalTargetLanguage(config, source) else None
  }

  /** The three paths agree whenever the source language is known; without it
      the final path still answers, the preview path answers only in one-way
      mode and the display path never answers. */
  lemma {:induction false} TargetLanguagePaths(config: Option<TranslationConfig>, source: Option<string>)
    ensures Truthy(source) ==>
      PreviewTargetLanguage(config, source) == FinalTargetLanguage(config, source) == DisplayTargetLanguage(config, source)
    ensures !Truthy(source) ==> DisplayTargetLanguage(config, source) == None
    ensures !Truthy(source) && config.Some? && config.value.TwoWayConfig? ==>
      PreviewTargetLanguage(config, source) == None
    ensures source.None? && config.Some? && config.value.TwoWayConfig? ==>
      FinalTargetLanguage(config, source) == Some(config.value.language_a)
    ensures config.Some? && config.value.OneWayConfig? ==>
      PreviewTargetLanguage(config, source) == FinalTargetLanguage(config, source) == Some(config.value.target_language)
    ensures config.None? ==> FinalTargetLanguage(config, source) == None && PreviewTargetLanguage(config, source) == None
  {
  }

  /** In two-way mode with two different languages, a source that is one of
      them is translated into the other one. */
  lemma {:induction false} TwoWayFlip(a: string, b: string, source: string)
    requires a != b && (source == a || source == b)
    ensures var t := FinalTargetLanguage(Some(TwoWayConfig(a, b)), Some(source));
      t.Some? && t.value != source && (t.value == a || t.value == b)
  {
  }

  /** Whether an original-only final batch waits for a translation. */
  predicate NeedsTranslation(config: Option<TranslationConfig>, source: Option<string>) {
    match config
    case None => false
    case Some(OneWayConfig(target)) => source != Some(target)
    case Some(TwoWayConfig(_, _)) => true
  }

  // ---------------------------------------------------------------------
  // The state and the two effect passes as functions
  // ---------------------------------------------------------------------

  /** The three refs the hook keeps between renders. */
  datatype TranscriberState = TranscriberState(
    lastBroadcast: string,
    pendingFinalTokens: seq<Token>,
    pendingOriginal: Option<PendingTranscript>)

  const InitialState := TranscriberState("", [], None)

  /** `${text}|${translatedText}`. */
  function BroadcastKey(text: string, translated: string): string {
    text + "|" + translated
  }

  /** The non-final effect: derive the preview, drop it when its key equals
      the last one, otherwise record the key and broadcast when there is
      original text. */
  function NonFinalStep(st: TranscriberState, p: HookParams, tokens: seq<Token>, now: int): (TranscriberState, Option<Broadcast>) {
    if tokens == [] then (st, None)
    else
      var text := OriginalText(tokens);
      var translated := TranslatedText(tokens);
      var key := BroadcastKey(text, translated);
      if key == st.lastBroadcast then (st, None)
      else
        var source := SourceLanguage(tokens);
        var target := PreviewTargetLanguage(p.config, source);
        var sent :=
          if text != "" && p.hasOnBroadcast then
            Some(Broadcast(p.participantId, p.participantName, text,
                           if translated != "" then Some(translated) else None,
                           source, target, now))
          else None;
        (st.(lastBroadcast := key), sent)
  }

  /** The tokens a final pass looks at: those after the cursor. */
  function NewTokens(st: TranscriberState, finalTokens: seq<Token>): seq<Token> {
    if |st.pendingFinalTokens| <= |finalTokens| then finalTokens[|st.pendingFinalTokens|..] else []
  }

  function Emit(p: HookParams, e: FinalTranscript): Option<FinalTranscript> {
    if p.hasOnFinalTranscript then Some(e) else None
  }

  /** The final effect: look only at the tokens after the cursor, move the
      cursor to the end, and then pair originals with translations through
      the one-slot pending buffer. */
  function FinalStep(st: TranscriberState, p: HookParams, finalTokens: seq<Token>, now: int): (TranscriberState, Option<FinalTranscript>) {
    if finalTokens == [] then (st, None)
    else
      var batch := NewTokens(st, finalTokens);
      if batch == [] then (st, None)
      else
        var st1 := st.(pendingFinalTokens := finalTokens);
        var originalText := OriginalText(batch);
        var translatedText := TranslatedText(batch);
        var source := SourceLanguage(batch);
        if OriginalTokens(batch) == [] && TranslatedTokens(batch) == [] then (st1, None)
        else
          var target := FinalTargetLanguage(p.config, source);
          if originalText != "" && translatedText == "" then
            if NeedsTranslation(p.config, source) then
              (st1.(pendingOriginal := Some(PendingTranscript(originalText, source, now))), None)
            else
              (st1, Emit(p, FinalTranscript(originalText, None, source, target)))
          else if originalText == "" && translatedText != "" then
            var pending := st.pendingOriginal;
            var original := if pending.Some? && pending.value.originalText != "" then pending.value.originalText else translatedText;
            var pendingSource := if pending.Some? then pending.value.sourceLanguage else None;
            (st1.(pendingOriginal := None), Emit(p, FinalTranscript(original, Some(translatedText), pendingSource, target)))
          else if originalText != "" && translatedText != "" then
            (st1, Emit(p, FinalTranscript(originalText, Some(translatedText), source, target)))
          else
            (st1, None)
  }

  /** What the hook exposes for the local speaker's own display. */
  datatype StreamingView = StreamingView(
    streamingOriginal: string,
    streamingTranslated: string,
    currentSourceLanguage: Option<string>,
    currentTargetLanguage: Option<string>)

  function Streaming(config: Option<TranslationConfig>, nonFinal: seq<Token>): (v: StreamingView)
    ensures v.currentTargetLanguage.Some? ==> Truthy(v.currentSourceLanguage) && config.Some?
    ensures |v.streamingOriginal| + |v.streamingTranslated| == |Texts(nonFinal)|
  {
    PartitionTextLength(nonFinal);
    var source := SourceLanguage(nonFinal);
    StreamingView(OriginalText(nonFinal), TranslatedText(nonFinal), source, DisplayTargetLanguage(config, source))
  }

  // ---------------------------------------------------------------------
  // Properties of the two passes
  // ---------------------------------------------------------------------

  /** A preview goes out exactly when the batch is non-empty, its key differs
      from the last key, it has original text and a callback is attached; the
      key is recorded whether or not anything goes out, and nothing else of
      the state changes. */
  lemma {:induction false} NonFinalBroadcastRule(st: TranscriberState, p: HookParams, tokens: seq<Token>, now: int)
    ensures var (st', sent) := NonFinalStep(st, p, tokens, now);
      var key := BroadcastKey(OriginalText(tokens), TranslatedText(tokens));
      && (sent.Some? <==> tokens != [] && key != st.lastBroadcast && OriginalText(tokens) != "" && p.hasOnBroadcast)
      && st'.lastBroadcast == (if tokens == [] then st.lastBroadcast else key)
      && st'.pendingFinalTokens == st.pendingFinalTokens
      && st'.pendingOriginal == st.pendingOriginal
      && (sent.Some? ==>
            && sent.value.text == OriginalText(tokens)
            && (sent.value.translatedText.Some? <==> TranslatedText(tokens) != "")
            && sent.value.sourceLanguage == SourceLanguage(tokens)
            && sent.value.targetLanguage == PreviewTargetLanguage(p.config, SourceLanguage(tokens))
            && sent.value.participantId == p.participantId && sent.value.timestamp == now)
  {
  }

  /** What the speaker sees locally is what the others are sent: when a
      preview goes out, the local streaming view shows the same original
      text, the same translation (empty when none is sent) and the same
      source language, and, once that source is known, the same target. The
      view's target is always the preview path's once the source is known. */
  lemma {:induction false} StreamingMatchesBroadcast(st: TranscriberState, p: HookParams, tokens: seq<Token>, now: int)
    ensures var sent := NonFinalStep(st, p, tokens, now).1;
      var v := Streaming(p.config, tokens);
      sent.Some? ==>
        && v.streamingOriginal == sent.value.text
        && (sent.value.translatedText.Some? ==> v.streamingTranslated == sent.value.translatedText.value)
        && (sent.value.translatedText.None? ==> v.streamingTranslated == "")
        && v.currentSourceLanguage == sent.value.sourceLanguage
        && (Truthy(v.currentSourceLanguage) ==> v.currentTargetLanguage == sent.value.targetLanguage)
    ensures var v := Streaming(p.config, tokens);
      && v.streamingOriginal == OriginalText(tokens) && v.streamingTranslated == TranslatedText(tokens)
      && v.currentSourceLanguage == SourceLanguage(tokens)
      && (Truthy(v.currentSourceLanguage) ==> v.currentTargetLanguage == PreviewTargetLanguage(p.config, v.currentSourceLanguage))
      && (!Truthy(v.currentSourceLanguage) ==> v.currentTargetLanguage == None)
  {
    NonFinalBroadcastRule(st, p, tokens, now);
    TargetLanguagePaths(p.config, SourceLanguage(tokens));
  }

  /** Two consecutive batches with the same texts give one broadcast at most:
      the second is suppressed and changes nothing. */
  lemma {:induction false} RepeatedPreviewSuppressed(st: TranscriberState, p: HookParams, a: seq<Token>, b: seq<Token>, t1: int, t2: int)
    requires a != [] && b != []
    requires OriginalText(a) == OriginalText(b) && TranslatedText(a) == TranslatedText(b)
    ensures var (st1, _) := NonFinalStep(st, p, a, t1);
      NonFinalStep(st1, p, b, t2) == (st1, None)
  {
  }

  /** The key does not separate its two parts: different text pairs can share
      a key, and the second of them is then never broadcast. */
  lemma {:induction false} BroadcastKeyCollision(p: HookParams, now: int)
    requires p.hasOnBroadcast
    ensures BroadcastKey("a|", "") == BroadcastKey("a", "|")
    ensures var first := [Token("a|", false, Original, Some("en"))];
      var second := [Token("a", false, Original, Some("en")), Token("|", false, Translation, Some("vi"))];
      var (st1, sent1) := NonFinalStep(InitialState, p, first, now);
      var (st2, sent2) := NonFinalStep(st1, p, second, now);
      sent1.Some? && OriginalText(second) != OriginalText(first) && sent2.None?
  {
    var first := [Token("a|", false, Original, Some("en"))];
    var second := [Token("a", false, Original, Some("en")), Token("|", false, Translation, Some("vi"))];
    assert OriginalTokens(first) == first;
    assert TranslatedTokens(first) == [];
    assert OriginalTokens(second) == [second[0]];
    assert TranslatedTokens(second) == [second[1]];
  }

  /** The cursor: a pass with no tokens past the cursor changes nothing and
      emits nothing; otherwise it records the whole list. */
  lemma {:induction false} FinalCursor(st: TranscriberState, p: HookParams, finalTokens: seq<Token>, now: int)
    ensures |finalTokens| <= |st.pendingFinalTokens| ==> FinalStep(st, p, finalTokens, now) == (st, None)
    ensures |finalTokens| > |st.pendingFinalTokens| ==>
      FinalStep(st, p, finalTokens, now).0.pendingFinalTokens == finalTokens &&
      FinalStep(st, p, finalTokens, now).0.lastBroadcast == st.lastBroadcast
  {
  }

  /** A final pass looks only at the tokens past the cursor: two lists that
      agree there give the same event and the same pending buffer. */
  lemma {:induction false} FinalStepReadsOnlyNewTokens(st: TranscriberState, p: HookParams, f1: seq<Token>, f2: seq<Token>, now: int)
    requires |f1| > |st.pendingFinalTokens| && |f2| > |st.pendingFinalTokens|
    requires f1[|st.pendingFinalTokens|..] == f2[|st.pendingFinalTokens|..]
    ensures FinalStep(st, p, f1, now).1 == FinalStep(st, p, f2, now).1
    ensures FinalStep(st, p, f1, now).0.pendingOriginal == FinalStep(st, p, f2, now).0.pendingOriginal
  {
  }

  /** With an append-only final list, two passes see disjoint consecutive
      slices that together are everything past the first cursor: no token is
      processed twice and none is skipped. */
  lemma {:induction false} CursorPassesPartition(st: TranscriberState, p: HookParams, f1: seq<Token>, f2: seq<Token>, now: int)
    requires |st.pendingFinalTokens| < |f1| < |f2| && f1 == f2[..|f1|]
    ensures var st1 := FinalStep(st, p, f1, now).0;
      NewTokens(st, f1) + NewTokens(st1, f2) == f2[|st.pendingFinalTokens|..]
  {
    var k := |st.pendingFinalTokens|;
    var st1 := FinalStep(st, p, f1, now).0;
    assert st1.pendingFinalTokens == f1;
    assert f2[k..] == f2[k..|f1|] + f2[|f1|..];
  }

  /** An original-only batch is held back when a translation is expected
      (overwriting whatever was pending) and emitted at once without a
      translation otherwise, including when there is no configuration. */
  lemma {:induction false} OriginalOnlyBatch(st: TranscriberState, p: HookParams, finalTokens: seq<Token>, now: int)
    requires |finalTokens| > |st.pendingFinalTokens|
    requires var batch := NewTokens(st, finalTokens);
      OriginalText(batch) != "" && TranslatedText(batch) == ""
    ensures var batch := NewTokens(st, finalTokens);
      var source := SourceLanguage(batch);
      var (st', e) := FinalStep(st, p, finalTokens, now);
      if NeedsTranslation(p.config, source) then
        e.None? && st'.pendingOriginal == Some(PendingTranscript(OriginalText(batch), source, now))
      else
        st'.pendingOriginal == st.pendingOriginal &&
        e == Emit(p, FinalTranscript(OriginalText(batch), None, source, FinalTargetLanguage(p.config, source)))
    ensures p.config.None? ==> !NeedsTranslation(p.config, SourceLanguage(NewTokens(st, finalTokens)))
  {
    var batch := NewTokens(st, finalTokens);
    assert OriginalTokens(batch) != [];
  }

  /** A translation-only batch is paired with the pending original (or stands
      in for it when nothing is pending), takes the pending source language,
      computes the target from its own (usually absent) source language — so
      in two-way mode it is then the first language — and clears the buffer. */
  lemma {:induction false} TranslationOnlyBatch(st: TranscriberState, p: HookParams, finalTokens: seq<Token>, now: int)
    requires |finalTokens| > |st.pendingFinalTokens|
    requires var batch := NewTokens(st, finalTokens);
      OriginalText(batch) == "" && TranslatedText(batch) != ""
    ensures var batch := NewTokens(st, finalTokens);
      var (st', e) := FinalStep(st, p, finalTokens, now);
      && st'.pendingOriginal == None
      && (p.hasOnFinalTranscript <==> e.Some?)
      && (e.Some? ==>
            && e.value.translatedText == Some(TranslatedText(batch))
            && e.value.originalText == (if st.pendingOriginal.Some? && st.pendingOriginal.value.originalText != ""
                                        then st.pendingOriginal.value.originalText else TranslatedText(batch))
            && e.value.sourceLanguage == (if st.pendingOriginal.Some? then st.pendingOriginal.value.sourceLanguage else None)
            && e.value.targetLanguage == FinalTargetLanguage(p.config, SourceLanguage(batch)))
    ensures OriginalTokens(NewTokens(st, finalTokens)) == [] && p.config.Some? && p.config.value.TwoWayConfig? ==>
      FinalTargetLanguage(p.config, SourceLanguage(NewTokens(st, finalTokens))) == Some(p.config.value.language_a)
  {
    var batch := NewTokens(st, finalTokens);
    assert TranslatedTokens(batch) != [];
  }

  /** A batch with both texts emits the pair and leaves the buffer alone; a
      batch whose texts are both empty emits nothing but still moves the
      cursor. */
  lemma {:induction false} MixedAndEmptyBatches(st: TranscriberState, p: HookParams, finalTokens: seq<Token>, now: int)
    requires |finalTokens| > |st.pendingFinalTokens|
    ensures var batch := NewTokens(st, finalTokens);
      var (st', e) := FinalStep(st, p, finalTokens, now);
      && (OriginalText(batch) != "" && TranslatedText(batch) != "" ==>
            st'.pendingOriginal == st.pendingOriginal &&
            e == Emit(p, FinalTranscript(OriginalText(batch), Some(TranslatedText(batch)), SourceLanguage(batch),
                                         FinalTargetLanguage(p.config, SourceLanguage(batch)))))
      && (OriginalText(batch) == "" && TranslatedText(batch) == "" ==>
            e.None? && st' == st.(pendingFinalTokens := finalTokens))
  {
  }

  /** Every token past the cursor is in one of the two groups, so the
      "no tokens at all" guard of the final pass never fires. */
  lemma {:induction false} NoTokensGuardUnreachable(st: TranscriberState, finalTokens: seq<Token>)
    requires |finalTokens| > |st.pendingFinalTokens|
    ensures var batch := NewTokens(st, finalTokens);
      OriginalTokens(batch) != [] || TranslatedTokens(batch) != []
  {
    PartitionCovers(NewTokens(st, finalTokens));
  }

  /** Two-way English/Vietnamese: "hello" in English is held back, then its
      translation arrives alone and the pair is emitted — with the source
      language English and, because the target is computed from the
      translation batch, the target language English as well. */
  lemma {:induction false} TwoWayPairingAsWritten(p: HookParams, t1: int, t2: int)
    requires p.config == Some(TwoWayConfig("en", "vi")) && p.hasOnFinalTranscript
    ensures var hello := Token("hello", true, Original, Some("en"));
      var xinChao := Token("xin ch\U{00E0}o", true, Translation, Some("vi"));
      var (st1, e1) := FinalStep(InitialState, p, [hello], t1);
      var (st2, e2) := FinalStep(st1, p, [hello, xinChao], t2);
      && e1 == None
      && st1.pendingOriginal == Some(PendingTranscript("hello", Some("en"), t1))
      && e2 == Some(FinalTranscript("hello", Some("xin ch\U{00E0}o"), Some("en"), Some("en")))
      && st2.pendingOriginal == None
  {
    var hello := Token("hello", true, Original, Some("en"));
    var xinChao := Token("xin ch\U{00E0}o", true, Translation, Some("vi"));
    assert OriginalTokens([hello]) == [hello];
    assert TranslatedTokens([hello]) == [];
    TextsAppend([hello], []);
    TextsAppend([xinChao], []);
    assert [hello] + [] == [hello] && [xinChao] + [] == [xinChao];
    assert OriginalText([hello]) == "hello" && TranslatedText([hello]) == "";
    assert SourceLanguage([hello]) == Some("en");
    var st1 := FinalStep(InitialState, p, [hello], t1).0;
    assert st1.pendingFinalTokens == [hello];
    assert NewTokens(st1, [hello, xinChao]) == [xinChao];
    assert OriginalTokens([xinChao]) == [];
    assert TranslatedTokens([xinChao]) == [xinChao];
    assert OriginalText([xinChao]) == "" && TranslatedText([xinChao]) == "xin ch\U{00E0}o";
    assert SourceLanguage([xinChao]) == None;
  }

  /** The pairing as evidently intended: the translation batch's target is
      derived from the pending original's source language. */
  function FinalStepIntended(st: TranscriberState, p: HookParams, finalTokens: seq<Token>, now: int): (TranscriberState, Option<FinalTranscript>) {
    var (st', e) := FinalStep(st, p, finalTokens, now);
    var batch := NewTokens(st, finalTokens);
    if e.Some? && OriginalText(batch) == "" && st.pendingOriginal.Some? then
      (st', Some(e.value.(targetLanguage := FinalTargetLanguage(p.config, st.pendingOriginal.value.sourceLanguage))))
    else (st', e)
  }

  /** With the intended rule, a paired translation in two-way mode is labelled
      with the language opposite to the pending original's. */
  lemma {:induction false} PairedTargetOppositeIntended(st: TranscriberState, p: HookParams, finalTokens: seq<Token>, now: int, a: string, b: string)
    requires p.config == Some(TwoWayConfig(a, b)) && a != b
    requires st.pendingOriginal.Some? && st.pendingOriginal.value.sourceLanguage.Some?
    requires var s := st.pendingOriginal.value.sourceLanguage.value; s == a || s == b
    requires |finalTokens| > |st.pendingFinalTokens|
    requires var batch := NewTokens(st, finalTokens);
      OriginalText(batch) == "" && TranslatedText(batch) != ""
    ensures var e := FinalStepIntended(st, p, finalTokens, now).1;
      p.hasOnFinalTranscript ==>
        e.Some? && e.value.sourceLanguage == st.pendingOriginal.value.sourceLanguage &&
        e.value.targetLanguage.Some? && Some(e.value.targetLanguage.value) != e.value.sourceLanguage &&
        (e.value.targetLanguage.value == a || e.value.targetLanguage.value == b)
  {
    TranslationOnlyBatch(st, p, finalTokens, now);
    TwoWayFlip(a, b, st.pendingOriginal.value.sourceLanguage.value);
  }

  // ---------------------------------------------------------------------
  // The hook as an object
  // ---------------------------------------------------------------------

  class SessionTranscriber {
    var lastBroadcast: string
    var pendingFinalTokens: seq<Token>
    var pendingOriginal: Option<PendingTranscript>
    /** Whether the engine is recording (its start/stop calls are not modelled further). */
    var recording: bool

    function State(): TranscriberState
      reads this
    {
      TranscriberState(lastBroadcast, pendingFinalTokens, pendingOriginal)
    }

    constructor ()
      ensures State() == InitialState && !recording
    {
      lastBroadcast := "";
      pendingFinalTokens := [];
      pendingOriginal := None;
      recording := false;
    }

    /** The non-final effect run (lines 52-94). */
    method OnNonFinalTokens(p: HookParams, nonFinalTokens: seq<Token>, now: int) returns (sent: Option<Broadcast>)
      modifies this
      ensures (State(), sent) == NonFinalStep(old(State()), p, nonFinalTokens, now)
      ensures recording == old(recording)
    {
      sent := None;
      if nonFinalTokens == [] {
        return;
      }
      var text := OriginalText(nonFinalTokens);
      var translatedText := TranslatedText(nonFinalTokens);
      var key := BroadcastKey(text, translatedText);
      if key == lastBroadcast {
        return;
      }
      lastBroadcast := key;
      var sourceLanguage := SourceLanguage(nonFinalTokens);
      var targetLanguage: Option<string> := None;
      if p.config.Some? {
        match p.config.value {
          case OneWayConfig(target) =>
            targetLanguage := Some(target);
          case TwoWayConfig(a, b) =>
            if Truthy(sourceLanguage) {
              targetLanguage := Some(if sourceLanguage == Some(a) then b else a);
            }
        }
      }
      if text != "" && p.hasOnBroadcast {
        sent := Some(Broadcast(p.participantId, p.participantName, text,
                               if translatedText != "" then Some(translatedText) else None,
                               sourceLanguage, targetLanguage, now));
      }
    }

    /** The final effect run (lines 99-187). */
    method OnFinalTokens(p: HookParams, finalTokens: seq<Token>, now: int) returns (emitted: Option<FinalTranscript>)
      modifies this
      ensures (State(), emitted) == FinalStep(old(State()), p, finalTokens, now)
      ensures recording == old(recording)
    {
      emitted := None;
      if finalTokens == [] {
        return;
      }
      var newTokens := if |pendingFinalTokens| <= |finalTokens| then finalTokens[|pendingFinalTokens|..] else [];
      if newTokens == [] {
        return;
      }
      pendingFinalTokens := finalTokens;
      var originalText := OriginalText(newTokens);
      var translatedText := TranslatedText(newTokens);
      var sourceLanguage := SourceLanguage(newTokens);
      if OriginalTokens(newTokens) == [] && TranslatedTokens(newTokens) == [] {
        return;
      }
      var targetLanguage := FinalTargetLanguage(p.config, sourceLanguage);
      if originalText != "" && translatedText == "" {
        if NeedsTranslation(p.config, sourceLanguage) {
          pendingOriginal := Some(PendingTranscript(originalText, sourceLanguage, now));
          return;
        } else if p.hasOnFinalTranscript {
          emitted := Some(FinalTranscript(originalText, None, sourceLanguage, targetLanguage));
        }
      } else if originalText == "" && translatedText != "" {
        var pending := pendingOriginal;
        if p.hasOnFinalTranscript {
          var original := if pending.Some? && pending.value.originalText != "" then pending.value.originalText else translatedText;
          emitted := Some(FinalTranscript(original, Some(translatedText),
                                          if pending.Some? then pending.value.sourceLanguage else None,
                                          targetLanguage));
        }
        pendingOriginal := None;
      } else if originalText != "" && translatedText != "" {
        if p.hasOnFinalTranscript {
          emitted := Some(FinalTranscript(originalText, Some(translatedText), sourceLanguage, targetLanguage));
        }
      }
    }

    /** `start()`: clear all three refs and start the engine. */
    method Start()
      modifies this
      ensures State() == InitialState && recording
    {
      pendingFinalTokens := [];
      lastBroadcast := "";
      pendingOriginal := None;
      recording := true;
    }

    /** `stop()`: stop the engine; the refs, and so any pending original, are
        left as they are. */
    method Stop()
      modifies this
      ensures State() == old(State()) && !recording
    {
      recording := false;
    }
  }

  /** After `start()` the first final batch is processed from index 0, whatever
      had been seen before. */
  lemma {:induction false} StartThenFirstBatch(p: HookParams, finalTokens: seq<Token>, now: int)
    requires finalTokens != []
    ensures NewTokens(InitialState, finalTokens) == finalTokens
    ensures FinalStep(InitialState, p, finalTokens, now).0.pendingFinalTokens == finalTokens
  {
  }
}
