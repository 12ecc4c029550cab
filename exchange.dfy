/** The exchange coordinator of the assistant page: one request/response
    cycle of `handleSend`, the speech step of `generateSpeech`, and the
    proactive advice injected when the page opens. The remote language
    model, the image model and the speech service are not called: what they
    return (or the error they raise) is given as an input. */
module Exchange {
  import opened Wrappers
  import opened Text
  import Seqs
  import opened LongTermMemory
  import opened ContextAnalysis
  import opened Engine
  import opened OfflineFallback
  import opened Proactivity
  import opened Pcm

  // ---------------------------------------------------------------------
  // Messages, media and requests

  datatype Role = User | Model | System

  /** A transcript entry. */
  datatype Message = Message(
    id: string,
    role: Role,
    text: string,
    isError: bool,
    imageUrl: Option<string>,
    videoUrl: Option<string>)

  /** An attachment: an image, a video or a voice recording. */
  datatype Media = Media(base64: string, mimeType: string, url: string, isVideo: bool, isAudio: bool)

  /** A part of a request to the language model. */
  datatype Part = TextPart(text: string) | InlinePart(data: string, mimeType: string)

  /** One turn of the conversation sent to the language model. */
  datatype Turn = Turn(role: Role, parts: seq<Part>)

  /** Inline data in a response of the image model. */
  datatype InlineData = InlineData(mimeType: string, data: string)

  /** A part of a response of the image model; only its inline data matters. */
  datatype ResponsePart = ResponsePart(inlineData: Option<InlineData>)

  /** What a stream request gives: a refusal before any output, or the text
      chunks received (`None` for a chunk without text) and the error that
      broke the stream, if one did. */
  datatype Stream = Refused(error: string) | Opened(chunks: seq<Option<string>>, broken: Option<string>)

  /** What the speech service gives: an error, or the decoded audio bytes
      (empty when the response carried no audio). */
  datatype Speech = SpeechFailed(error: string) | SpeechAudio(binary: string)

  /** An exchange waiting for the remote model: what the page decided before
      the call. */
  datatype Request = Request(
    text: string,
    userText: string,
    isImageRequest: bool,
    tone: string,
    ltm: string,
    requiresStrategy: bool,
    contents: seq<Turn>,
    voiceEnabled: bool)

  // ---------------------------------------------------------------------
  // Fixed texts

  const VideoPlaceholder := "[VÍDEO ENVIADO]"
  const VoicePlaceholder := "[MENSAGEM DE VOZ]"
  const ImagePlaceholder := "[IMAGEM ENVIADA]"
  const VideoPrompt := "Analise este vídeo."
  const VoicePrompt := "Responda a esta mensagem de voz."
  const ImagePrompt := "Analise esta imagem."
  const MemoryLogLine := "MEMÓRIA: Consolidando dado importante " + "na Memória de Longo Prazo."
  const ImageCaption := "Aqui está a imagem gerada conforme " + "o seu pedido:"
  const ImageFailure := "Falha ao gerar imagem."
  const GenericError := "ERRO NO PROCESSAMENTO COGNITIVO."
  const QuotaAdvice := "ALERTA: Limite de requisições excedido " + "(Quota 429). Por favor, aguarde alguns "
    + "instantes antes de enviar novos comandos " + "ou verifique o seu plano de faturação da " + "API."
  const SpeechQuotaAlert := "ALERTA: Limite de requisições excedido " + "para o serviço de voz (Quota 429)."

  // ---------------------------------------------------------------------
  // Building the user turn and the request

  /** The guard of `handleSend`: nothing to send. */
  predicate NothingToSend(text: string, media: Option<Media>)
  {
    IsBlank(text) && media.None?
  }

  /** The placeholder shown for an attachment sent without text. */
  function MediaPlaceholder(media: Media): (placeholder: string)
  {
    if media.isVideo then VideoPlaceholder
    else if media.isAudio then VoicePlaceholder
    else ImagePlaceholder
  }

  /** The text of the user's turn: the typed text, or the placeholder when
      nothing at all was typed. */
  function UserText(text: string, media: Option<Media>): (shown: string)
  {
    if text == "" && media.Some? then MediaPlaceholder(media.value) else text
  }

  /** The user's transcript entry: an image or a video attachment is shown
      by its URL, a voice recording is not. */
  function UserMessage(id: string, text: string, media: Option<Media>): (entry: Message)
  {
    Message(id, User, UserText(text, media), false,
      if media.Some? && !media.value.isVideo && !media.value.isAudio then Some(media.value.url) else None,
      if media.Some? && media.value.isVideo then Some(media.value.url) else None)
  }

  /** The fixed instruction sent for an attachment without text. */
  function MediaPrompt(media: Media): (prompt: string)
  {
    if media.isVideo then VideoPrompt
    else if media.isAudio then VoicePrompt
    else ImagePrompt
  }

  /** The parts of the user's request: the typed text (or, when it is
      blank, the prompt for the attachment), then the attachment itself. */
  function RequestParts(text: string, media: Option<Media>): (parts: seq<Part>)
  {
    (if !IsBlank(text) then [TextPart(text)]
     else if media.Some? then [TextPart(MediaPrompt(media.value))]
     else [])
    + (if media.Some? then [InlinePart(media.value.base64, media.value.mimeType)] else [])
  }

  /** Whatever passes the guard gets a non-empty transcript entry: either
      something was typed, or there is an attachment and its placeholder. */
  lemma UserTextNonEmpty(text: string, media: Option<Media>)
    requires !NothingToSend(text, media)
    ensures UserText(text, media) != ""
    ensures text != "" ==> UserText(text, media) == text
  {
  }

  /** An attachment with no text at all gets the placeholder of its kind; a
      video wins over a voice recording, which wins over an image. A text
      of spaces keeps its spaces. */
  lemma PlaceholderByKind(media: Media)
    ensures UserText("", Some(media)) ==
      if media.isVideo then VideoPlaceholder else if media.isAudio then VoicePlaceholder else ImagePlaceholder
    ensures UserText(" ", Some(media)) == " "
  {
  }

  /** Whatever passes the guard is sent as one text part, followed by one
      inline part exactly when there is an attachment. */
  lemma PartsShape(text: string, media: Option<Media>)
    requires !NothingToSend(text, media)
    ensures var parts := RequestParts(text, media);
      && |parts| == (if media.Some? then 2 else 1)
      && parts[0].TextPart?
      && (parts[0].text == text <==> !IsBlank(text) || MediaPrompt(media.value) == text)
      && (media.Some? ==> parts[1] == InlinePart(media.value.base64, media.value.mimeType))
  {
  }

  // ---------------------------------------------------------------------
  // The history sent to the model

  predicate IsConversational(m: Message)
  {
    m.role != System
  }

  function ToTurn(m: Message): (turn: Turn)
  {
    Turn(m.role, [TextPart(m.text)])
  }

  /** The transcript without its system entries, each entry as a turn. */
  function History(messages: seq<Message>): (h: seq<Turn>)
    ensures |h| <= |messages|
  {
    if |messages| == 0 then []
    else (if IsConversational(messages[0]) then [ToTurn(messages[0])] else []) + History(messages[1..])
  }

  /** The history of a longer transcript is the history of its parts. */
  lemma {:induction false} HistoryAppend(a: seq<Message>, b: seq<Message>)
    ensures History(a + b) == History(a) + History(b)
  {
    if |a| == 0 {
      assert a + b == b;
    } else {
      var head := if IsConversational(a[0]) then [ToTurn(a[0])] else [];
      assert (a + b)[0] == a[0];
      assert (a + b)[1..] == a[1..] + b;
      assert History(a + b) == head + History(a[1..] + b);
      HistoryAppend(a[1..], b);
      assert History(a) == head + History(a[1..]);
    }
  }

  /** The history holds one turn per non-system entry, in transcript order,
      and no system turn. */
  lemma {:induction false} HistoryIsFilteredTranscript(messages: seq<Message>)
    ensures |History(messages)| == |Seqs.Filter(messages, IsConversational)|
    ensures forall i | 0 <= i < |History(messages)| ::
      History(messages)[i] == ToTurn(Seqs.Filter(messages, IsConversational)[i])
    ensures forall i | 0 <= i < |History(messages)| :: History(messages)[i].role != System
  {
    if |messages| > 0 {
      HistoryIsFilteredTranscript(messages[1..]);
    }
  }

  /** A system entry adds nothing to the history; any other entry adds its
      own turn at the end. */
  lemma HistoryOfAppended(messages: seq<Message>, m: Message)
    ensures History(messages + [m]) == History(messages) + (if m.role == System then [] else [ToTurn(m)])
  {
    HistoryAppend(messages, [m]);
    assert [m][1..] == [];
  }

  // ---------------------------------------------------------------------
  // The image branch

  /** The data URL of inline image data. */
  function DataUrl(d: InlineData): (url: string)
    ensures StartsWith(url, "data:")
  {
    "data:" + d.mimeType + ";base64," + d.data
  }

  predicate HasInline(p: ResponsePart)
  {
    p.inlineData.Some?
  }

  /** The first inline data among the parts, if any. */
  function FirstInline(parts: seq<ResponsePart>): (found: Option<InlineData>)
  {
    if |parts| == 0 then None
    else if parts[0].inlineData.Some? then parts[0].inlineData
    else FirstInline(parts[1..])
  }

  /** `FirstInline` finds the inline data of the first part that has some,
      and finds nothing exactly when no part has any. */
  lemma {:induction false} FirstInlineIsFirst(parts: seq<ResponsePart>)
    ensures FirstInline(parts).None? <==> forall i | 0 <= i < |parts| :: !HasInline(parts[i])
    ensures forall k | Seqs.IsFirst(parts, HasInline, k) :: FirstInline(parts) == parts[k].inlineData
  {
    if |parts| > 0 {
      FirstInlineIsFirst(parts[1..]);
      forall k | Seqs.IsFirst(parts, HasInline, k)
        ensures FirstInline(parts) == parts[k].inlineData
      {
        if k > 0 {
          assert Seqs.IsFirst(parts[1..], HasInline, k - 1);
        }
      }
      assert forall i | 1 <= i < |parts| :: parts[i] == parts[1..][i - 1];
    }
  }

  /** The loop of the image branch: the data URL of the first part with
      inline data, or "" when there is none. */
  method FindImageUrl(parts: seq<ResponsePart>) returns (url: string)
    ensures url == "" <==> forall i | 0 <= i < |parts| :: !HasInline(parts[i])
    ensures url != "" ==> exists k :: Seqs.IsFirst(parts, HasInline, k) && url == DataUrl(parts[k].inlineData.value)
  {
    url := "";
    var i := 0;
    while i < |parts|
      invariant 0 <= i <= |parts|
      invariant forall j | 0 <= j < i :: !HasInline(parts[j])
      invariant url == ""
    {
      if parts[i].inlineData.Some? {
        url := DataUrl(parts[i].inlineData.value);
        assert Seqs.IsFirst(parts, HasInline, i);
        return;
      }
      i := i + 1;
    }
  }

  // ---------------------------------------------------------------------
  // Error classification

  /** The error text names a rate limit or an exhausted quota. */
  predicate IsQuotaError(error: string)
  {
    Contains(error, "429") || Contains(error, "quota") || Contains(error, "RESOURCE_EXHAUSTED")
  }

  /** The message shown for a failed exchange. */
  function ErrorText(error: string): (message: string)
  {
    if IsQuotaError(error) then QuotaAdvice else GenericError
  }

  /** The quota advice is shown exactly for quota errors; every other error
      gets the generic message. */
  lemma ErrorClassification(error: string)
    ensures ErrorText(error) == QuotaAdvice <==> IsQuotaError(error)
    ensures ErrorText(error) == GenericError <==> !IsQuotaError(error)
  {
    assert QuotaAdvice[0] == 'A' && GenericError[0] == 'E';
  }

  /** A text without a '4', a 'q' and an 'R' is not a quota error. */
  lemma NotQuotaByChars(error: string)
    requires '4' !in error && 'q' !in error && 'R' !in error
    ensures !IsQuotaError(error)
  {
    NotContainsByChar(error, "429", '4');
    NotContainsByChar(error, "quota", 'q');
    NotContainsByChar(error, "RESOURCE_EXHAUSTED", 'R');
  }

  /** An image response without image data is reported with the generic
      message. */
  lemma ImageFailureIsGeneric()
    ensures ErrorText(ImageFailure) == GenericError
  {
    assert '4' !in ImageFailure by {}
    assert 'q' !in ImageFailure by {}
    assert 'R' !in ImageFailure by {}
    NotQuotaByChars(ImageFailure);
  }

  /** The error `generateSpeech` catches, if any: the service's error, or
      the range error of playing audio of odd length. */
  function SpeechError(speech: Speech): (caught: Option<string>)
  {
    match speech
    case SpeechFailed(error) => Some(error)
    case SpeechAudio(binary) => if binary != "" && |binary| % 2 != 0 then Some(OddLengthError) else None
  }

  /** The entry `generateSpeech` adds: the speech quota alert, for a quota
      error only. */
  function SpeechAlert(speech: Speech, id: string): (alert: seq<Message>)
  {
    var error := SpeechError(speech);
    if error.Some? && IsQuotaError(error.value)
    then [Message(id, System, SpeechQuotaAlert, true, None, None)]
    else []
  }

  /** Audio of odd length fails to play, but that failure is not a quota
      error, so it adds no alert: the alert comes only from the speech
      service's own quota errors. */
  lemma SpeechAlertOnlyForServiceQuota(speech: Speech, id: string)
    ensures SpeechAlert(speech, id) != [] <==> speech.SpeechFailed? && IsQuotaError(speech.error)
  {
    if speech.SpeechAudio? && speech.binary != "" && |speech.binary| % 2 != 0 {
      OddLengthLacks4();
      OddLengthLacksQ();
      OddLengthLacksR();
      NotQuotaByChars(OddLengthError);
    }
  }

  lemma OddLengthLacks4()
    ensures '4' !in OddLengthError
  {
  }

  lemma OddLengthLacksQ()
    ensures 'q' !in OddLengthError
  {
  }

  lemma OddLengthLacksR()
    ensures 'R' !in OddLengthError
  {
  }

  /** The error entry of the transcript: a system entry flagged as an error. */
  function ErrorTurn(id: string, error: string): (entry: Message)
  {
    Message(id, System, ErrorText(error), true, None, None)
  }

  // ---------------------------------------------------------------------
  // Streaming

  /** The text a chunk adds. A chunk without text adds nothing. */
  function ChunkText(chunk: Option<string>): (added: string)
  {
    if chunk.Some? then chunk.value else ""
  }

  /** The text of the chunks received, in order. */
  function Concat(chunks: seq<Option<string>>): (full: string)
  {
    if |chunks| == 0 then "" else Concat(chunks[..|chunks| - 1]) + ChunkText(chunks[|chunks| - 1])
  }

  /** What `fullText += chunk.text` adds when the chunk's text is
      `undefined`: the word "undefined". */
  function ChunkTextAsWritten(chunk: Option<string>): (added: string)
  {
    if chunk.Some? then chunk.value else "undefined"
  }

  function ConcatAsWritten(chunks: seq<Option<string>>): (full: string)
  {
    if |chunks| == 0 then "" else ConcatAsWritten(chunks[..|chunks| - 1]) + ChunkTextAsWritten(chunks[|chunks| - 1])
  }

  /** A chunk without text, such as a closing chunk carrying only metadata,
      puts "undefined" into the reply as written; it adds nothing to the
      reply of `Concat`. */
  lemma UndefinedChunk(text: string)
    ensures ConcatAsWritten([Some(text), None]) == text + "undefined"
    ensures Concat([Some(text), None]) == text
  {
    var chunks := [Some(text), None];
    assert chunks[..1] == [Some(text)];
    assert [Some(text)][..0] == [];
    assert ConcatAsWritten([Some(text)]) == "" + text == text;
    assert Concat([Some(text)]) == "" + text == text;
    assert ConcatAsWritten(chunks) == ConcatAsWritten(chunks[..1]) + "undefined";
    assert Concat(chunks) == Concat(chunks[..1]) + "";
  }

  /** The accumulated text is the concatenation of the chunk texts: when all
      chunks carry text, it is exactly their concatenation. */
  lemma {:induction false} ConcatAllText(chunks: seq<Option<string>>, texts: seq<string>)
    requires |chunks| == |texts| && forall i | 0 <= i < |chunks| :: chunks[i] == Some(texts[i])
    ensures Concat(chunks) == ConcatAsWritten(chunks)
    ensures |Concat(chunks)| == SumLengths(texts)
  {
    if |chunks| > 0 {
      ConcatAllText(chunks[..|chunks| - 1], texts[..|texts| - 1]);
    }
  }

  predicate HasText(chunk: Option<string>)
  {
    chunk.Some?
  }

  /** Chunks without text leave the reply as it would be without them. */
  lemma {:induction false} ConcatSkipsTextless(chunks: seq<Option<string>>)
    ensures Concat(chunks) == Concat(Seqs.Filter(chunks, HasText))
    decreases |chunks|
  {
    if |chunks| > 0 {
      var init, last := chunks[..|chunks| - 1], chunks[|chunks| - 1];
      assert chunks == init + [last];
      Seqs.FilterAppend(init, [last], HasText);
      ConcatSkipsTextless(init);
      var kept := Seqs.Filter(init, HasText);
      assert [last][1..] == [];
      if HasText(last) {
        assert Seqs.Filter([last], HasText) == [last];
        assert (kept + [last])[..|kept|] == kept;
      } else {
        assert Seqs.Filter([last], HasText) == [];
        assert kept + [] == kept;
      }
    }
  }

  function SumLengths(texts: seq<string>): (total: nat)
  {
    if |texts| == 0 then 0 else SumLengths(texts[..|texts| - 1]) + |texts[|texts| - 1]|
  }

  /** `prev.map(m => m.id === id ? { ...m, text } : m)` */
  function Rewrite(messages: seq<Message>, id: string, text: string): (r: seq<Message>)
    ensures |r| == |messages|
  {
    seq(|messages|, i requires 0 <= i < |messages| =>
      if messages[i].id == id then messages[i].(text := text) else messages[i])
  }

  /** Only the last rewrite counts. */
  lemma RewriteTwice(messages: seq<Message>, id: string, a: string, b: string)
    ensures Rewrite(Rewrite(messages, id, a), id, b) == Rewrite(messages, id, b)
  {
  }

  /** The transcript after `k` chunks: unchanged before the first one, and
      then every entry with the reply's id holds the text so far. */
  function Grow(messages: seq<Message>, id: string, chunks: seq<Option<string>>): (grown: seq<Message>)
  {
    if |chunks| == 0 then messages else Rewrite(messages, id, Concat(chunks))
  }

  /** When the reply's id is new to the transcript, growing it touches only
      the placeholder entry at the end, which ends with the whole text. */
  lemma GrowFreshPlaceholder(before: seq<Message>, id: string, chunks: seq<Option<string>>)
    requires forall i | 0 <= i < |before| :: before[i].id != id
    ensures Grow(before + [Message(id, Model, "", false, None, None)], id, chunks)
      == before + [Message(id, Model, Concat(chunks), false, None, None)]
  {
    var withPlaceholder := before + [Message(id, Model, "", false, None, None)];
    if |chunks| == 0 {
    } else {
      var r := Rewrite(withPlaceholder, id, Concat(chunks));
      assert r == before + [Message(id, Model, Concat(chunks), false, None, None)] by {
        forall i | 0 <= i < |before|
          ensures r[i] == before[i]
        {
          assert withPlaceholder[i] == before[i];
        }
      }
    }
  }

  /** The loop of the stream branch: each chunk's text is added to the
      reply and the transcript entries with the reply's id are rewritten
      with the text so far. */
  method ReceiveStream(messages: seq<Message>, id: string, chunks: seq<Option<string>>)
    returns (fullText: string, grown: seq<Message>)
    ensures fullText == Concat(chunks)
    ensures grown == Grow(messages, id, chunks)
  {
    fullText := "";
    grown := messages;
    var k := 0;
    while k < |chunks|
      invariant 0 <= k <= |chunks|
      invariant fullText == Concat(chunks[..k])
      invariant grown == Grow(messages, id, chunks[..k])
    {
      fullText := fullText + ChunkText(chunks[k]);
      assert chunks[..k + 1][..k] == chunks[..k];
      if k > 0 {
        RewriteTwice(messages, id, Concat(chunks[..k]), fullText);
      }
      grown := Rewrite(grown, id, fullText);
      k := k + 1;
    }
    assert chunks[..|chunks|] == chunks;
  }

  // ---------------------------------------------------------------------
  // The outcome of an exchange

  /** The speech step runs after a successful reply when speech is on. */
  predicate Speaks(voiceEnabled: bool, speech: Speech)
  {
    voiceEnabled && !(speech.SpeechAudio? && speech.binary == "")
  }

  /** The remote model gave a whole reply: an image, or a stream that was
      not refused and not broken. */
  predicate Replied(isImageRequest: bool, image: Result<seq<ResponsePart>, string>, stream: Stream)
  {
    if isImageRequest then image.Success? && FirstInline(image.value).Some?
    else stream.Opened? && stream.broken.None?
  }

  /** The entries the image branch adds. */
  function ImageReply(image: Result<seq<ResponsePart>, string>, speech: Speech, voiceEnabled: bool, id: string): (entries: seq<Message>)
  {
    if image.Failure? then [ErrorTurn(id, image.error)]
    else
      var first := FirstInline(image.value);
      if first.None? then [ErrorTurn(id, ImageFailure)]
      else [Message(id, Model, ImageCaption, false, Some(DataUrl(first.value)), None)]
           + (if voiceEnabled then SpeechAlert(speech, id) else [])
  }

  /** The transcript after the stream branch. */
  function StreamReply(before: seq<Message>, stream: Stream, speech: Speech, voiceEnabled: bool, id: string): (transcript: seq<Message>)
  {
    if stream.Refused? then before + [ErrorTurn(id, stream.error)]
    else
      var grown := Grow(before + [Message(id, Model, "", false, None, None)], id, stream.chunks);
      if stream.broken.Some? then grown + [ErrorTurn(id, stream.broken.value)]
      else grown + (if voiceEnabled then SpeechAlert(speech, id) else [])
  }

  /** An exchange that fails ends with exactly one error entry, flagged and
      with the system role, after everything that was there before. */
  lemma FailureEndsWithErrorTurn(before: seq<Message>, request: Request, image: Result<seq<ResponsePart>, string>,
                                 stream: Stream, speech: Speech, id: string)
    ensures request.isImageRequest && (image.Failure? || FirstInline(image.value).None?) ==>
      var r := ImageReply(image, speech, request.voiceEnabled, id);
      |r| == 1 && r[0].role == System && r[0].isError
    ensures !request.isImageRequest && stream.Refused? ==>
      var r := StreamReply(before, stream, speech, request.voiceEnabled, id);
      r[..|before|] == before && |r| == |before| + 1 && r[|before|] == ErrorTurn(id, stream.error)
    ensures !request.isImageRequest && stream.Opened? && stream.broken.Some? ==>
      var r := StreamReply(before, stream, speech, request.voiceEnabled, id);
      && |r| == |before| + 2
      && r[|before|] == Message(id, Model, Concat(stream.chunks), false, None, None)
      && r[|r| - 1] == ErrorTurn(id, stream.broken.value) && r[|r| - 1].role == System && r[|r| - 1].isError
      && ((forall i | 0 <= i < |before| :: before[i].id != id) ==> r[..|before|] == before)
  {
    if !request.isImageRequest && stream.Refused? {
      var r := StreamReply(before, stream, speech, request.voiceEnabled, id);
      assert r == before + [ErrorTurn(id, stream.error)];
    }
    if !request.isImageRequest && stream.Opened? && stream.broken.Some? {
      BrokenStreamEntries(before, stream.chunks, stream.broken.value, speech, request.voiceEnabled, id);
    }
  }

  /** A stream that breaks leaves the placeholder, holding the text received
      so far, and then the error entry. */
  lemma BrokenStreamEntries(before: seq<Message>, chunks: seq<Option<string>>, error: string,
                            speech: Speech, voiceEnabled: bool, id: string)
    ensures var r := StreamReply(before, Opened(chunks, Some(error)), speech, voiceEnabled, id);
      && |r| == |before| + 2
      && r[|before|] == Message(id, Model, Concat(chunks), false, None, None)
      && r[|r| - 1] == ErrorTurn(id, error)
      && ((forall i | 0 <= i < |before| :: before[i].id != id) ==> r[..|before|] == before)
  {
    var placeholder := Message(id, Model, "", false, None, None);
    var grown := Grow(before + [placeholder], id, chunks);
    var r := grown + [ErrorTurn(id, error)];
    assert |grown| == |before| + 1;
    assert grown[|before|] == Message(id, Model, Concat(chunks), false, None, None) by {
      if |chunks| == 0 {
        assert Concat(chunks) == "";
      }
    }
    assert r[|before|] == grown[|before|];
    if forall i | 0 <= i < |before| :: before[i].id != id {
      GrowFreshPlaceholder(before, id, chunks);
      assert r[..|before|] == before;
    }
  }

  /** A successful image reply shows the first inline image the model
      returned, as a data URL. */
  lemma ImageReplyShowsFirstImage(parts: seq<ResponsePart>, k: int, speech: Speech, voiceEnabled: bool, id: string)
    requires Seqs.IsFirst(parts, HasInline, k)
    ensures var r := ImageReply(Success(parts), speech, voiceEnabled, id);
      |r| >= 1 && r[0].role == Model && r[0].imageUrl == Some(DataUrl(parts[k].inlineData.value))
  {
    FirstInlineIsFirst(parts);
  }

  // ---------------------------------------------------------------------
  // The page

  class Assistant {
    var messages: seq<Message>
    var input: string
    var isLoading: bool
    var isSpeaking: bool
    var reasoningLogs: seq<string>
    var pending: Option<Request>
    const engine: JarvisEngine

    /** An exchange is in flight exactly while the page shows it loading. */
    ghost predicate Valid()
      reads this
    {
      isLoading <==> pending.Some?
    }

    /** The page opens with its two greeting entries, in the user's
        language. */
    constructor(engine: JarvisEngine, sysInit: string, sysOnline: string)
      ensures Valid() && this.engine == engine
      ensures messages == [Message("init", System, sysInit, false, None, None),
                           Message("init2", Model, sysOnline, false, None, None)]
      ensures input == "" && !isLoading && !isSpeaking && reasoningLogs == [] && pending == None
    {
      this.engine := engine;
      messages := [Message("init", System, sysInit, false, None, None),
                   Message("init2", Model, sysOnline, false, None, None)];
      input := "";
      isLoading := false;
      isSpeaking := false;
      reasoningLogs := [];
      pending := None;
    }

    /** The proactive check on opening: the engine's advice is added as a
        model entry when there is one and the transcript `rendered` holds
        no more than two entries. `rendered` is the transcript of the render
        that started the check, which for a page that has just opened is its
        two greeting entries, whatever the transcript has become since. */
    method Advise(tasks: seq<Task>, now: int, clock: nat, rendered: seq<Message>)
      modifies this
      ensures var advice := CheckProactivity(tasks, now);
        messages == old(messages) + (if advice.Some? && |rendered| <= 2
                                     then [Message(NatToString(clock), Model, advice.value, false, None, None)]
                                     else [])
      ensures input == old(input) && isLoading == old(isLoading) && isSpeaking == old(isSpeaking)
      ensures reasoningLogs == old(reasoningLogs) && pending == old(pending)
    {
      var suggestion := CheckProactivity(tasks, now);
      if suggestion.Some? && |rendered| <= 2 {
        messages := messages + [Message(NatToString(clock), Model, suggestion.value, false, None, None)];
      }
    }

    /** The part of `handleSend` up to the call to the remote model.
        Nothing happens when there is nothing to send or an exchange is in
        flight. Otherwise the input is cleared, the page shows it is
        loading and the user's entry is added. Offline, the canned reply is
        added and the exchange ends there, with the engine untouched.
        Online, the engine analyses the user's text, the text is kept in
        long-term memory when the score reaches 50 and something was typed,
        and the request is prepared: the history without system entries,
        then the user's turn. */
    method Submit(text: string, media: Option<Media>, online: bool, voiceEnabled: bool, clock: nat, localTime: string)
      requires Valid()
      modifies this, engine
      ensures Valid()
      ensures old(isLoading) || NothingToSend(text, media) ==>
        && messages == old(messages) && input == old(input) && isLoading == old(isLoading)
        && reasoningLogs == old(reasoningLogs) && pending == old(pending)
        && engine.ltmCache == old(engine.ltmCache) && engine.commandHistory == old(engine.commandHistory)
      ensures isSpeaking == old(isSpeaking)
      ensures !old(isLoading) && !NothingToSend(text, media) && !online ==>
        var userText := UserText(text, media);
        && input == "" && !isLoading && pending == None && reasoningLogs == old(reasoningLogs)
        && messages == old(messages) + [UserMessage(NatToString(clock), text, media),
                                        Message(NatToString(clock + 1), Model, OfflineResponse(userText, localTime), false, None, None)]
        && engine.ltmCache == old(engine.ltmCache) && engine.commandHistory == old(engine.commandHistory)
      ensures !old(isLoading) && !NothingToSend(text, media) && online ==>
        var userText := UserText(text, media);
        var lower := Lower(userText);
        var key := CommandKey(lower);
        var d := Decide(lower, key, Count(engine.commandHistory, key) > 3);
        var save := d.score >= StrategyThreshold && !IsBlank(text);
        && input == "" && isLoading
        && messages == old(messages) + [UserMessage(NatToString(clock), text, media)]
        && engine.commandHistory == Record(old(engine.commandHistory), key)
        && engine.ltmCache == (if save then Consolidate(old(engine.ltmCache), Memory(NatToString(clock), text, d.score, clock))
                               else old(engine.ltmCache))
        && reasoningLogs == d.reasoning + (if save then [MemoryLogLine] else [])
        && pending == Some(Request(text, userText, d.isImageRequest, d.tone, RenderMemories(engine.ltmCache),
                                   d.requiresStrategy,
                                   History(old(messages)) + [Turn(User, RequestParts(text, media))],
                                   voiceEnabled))
    {
      if IsBlank(text) && media.None? {
        return;
      }
      if isLoading {
        return;
      }
      var before := messages;
      var userText := Open(text, media, clock);
      if !online {
        AnswerOffline(userText, localTime, clock);
        return;
      }
      var context := Consult(text, media, userText, voiceEnabled, clock, before);
    }

    /** The first step of an exchange that passed the guard: the input is
        cleared, the page shows it is loading and the user's entry is added.
        The text of the entry is given back. */
    method Open(text: string, media: Option<Media>, clock: nat) returns (userText: string)
      modifies this
      ensures userText == UserText(text, media)
      ensures input == "" && isLoading
      ensures messages == old(messages) + [UserMessage(NatToString(clock), text, media)]
      ensures isSpeaking == old(isSpeaking) && reasoningLogs == old(reasoningLogs) && pending == old(pending)
    {
      input := "";
      isLoading := true;
      userText := text;
      if userText == "" {
        if media.Some? && media.value.isVideo {
          userText := VideoPlaceholder;
        } else if media.Some? && media.value.isAudio {
          userText := VoicePlaceholder;
        } else if media.Some? {
          userText := ImagePlaceholder;
        }
      }
      messages := messages + [UserMessage(NatToString(clock), text, media)];
    }

    /** Offline, the canned reply to the user's text ends the exchange. */
    method AnswerOffline(userText: string, localTime: string, clock: nat)
      modifies this
      ensures messages == old(messages) + [Message(NatToString(clock + 1), Model, OfflineResponse(userText, localTime), false, None, None)]
      ensures !isLoading
      ensures input == old(input) && isSpeaking == old(isSpeaking)
      ensures reasoningLogs == old(reasoningLogs) && pending == old(pending)
    {
      var reply := OfflineResponse(userText, localTime);
      messages := messages + [Message(NatToString(clock + 1), Model, reply, false, None, None)];
      isLoading := false;
    }

    /** The online part of `Submit`: the analysis, the memory, and the
        request for the remote model built from the transcript `before`
        the user's entry. */
    method Consult(text: string, media: Option<Media>, userText: string, voiceEnabled: bool, clock: nat,
                   before: seq<Message>)
      returns (d: Decision)
      modifies this, engine
      ensures var lower := Lower(userText); var key := CommandKey(lower);
        && engine.commandHistory == Record(old(engine.commandHistory), key)
        && d == Decide(lower, key, Count(engine.commandHistory, key) > 3)
      ensures var save := d.score >= StrategyThreshold && !IsBlank(text);
        && engine.ltmCache == (if save then Consolidate(old(engine.ltmCache), Memory(NatToString(clock), text, d.score, clock))
                               else old(engine.ltmCache))
        && reasoningLogs == d.reasoning + (if save then [MemoryLogLine] else [])
      ensures pending == Some(Request(text, userText, d.isImageRequest, d.tone, RenderMemories(engine.ltmCache),
                                      d.requiresStrategy,
                                      History(before) + [Turn(User, RequestParts(text, media))],
                                      voiceEnabled))
      ensures messages == old(messages) && input == old(input) && isLoading == old(isLoading)
      ensures isSpeaking == old(isSpeaking)
    {
      d := engine.AnalyzeContext(userText);
      reasoningLogs := d.reasoning;
      if d.score >= StrategyThreshold && !IsBlank(text) {
        engine.SaveToLTM(text, d.score, clock, clock);
        reasoningLogs := reasoningLogs + [MemoryLogLine];
      }
      var ltm := engine.GetLTMAsString();
      var parts := RequestParts(text, media);
      var history := History(before);
      pending := Some(Request(text, userText, d.isImageRequest, d.tone, ltm,
                              d.requiresStrategy, history + [Turn(User, parts)], voiceEnabled));
    }

    /** `generateSpeech` once the speech service has answered: audio is
        decoded and played, during which the page shows it is speaking; a
        quota error from the service, or from playing, adds the speech
        quota alert. */
    method Speak(speech: Speech, id: string)
      modifies this
      ensures messages == old(messages) + SpeechAlert(speech, id)
      ensures isSpeaking == if speech.SpeechAudio? && speech.binary == "" then old(isSpeaking) else false
      ensures input == old(input) && isLoading == old(isLoading)
      ensures reasoningLogs == old(reasoningLogs) && pending == old(pending)
    {
      match speech {
        case SpeechFailed(error) =>
          isSpeaking := false;
          if IsQuotaError(error) {
            messages := messages + [Message(id, System, SpeechQuotaAlert, true, None, None)];
          }
        case SpeechAudio(binary) =>
          if binary != "" {
            isSpeaking := true;
            var samples := DecodePcm(binary);
            isSpeaking := false;
            if samples.Failure? && IsQuotaError(samples.error) {
              messages := messages + [Message(id, System, SpeechQuotaAlert, true, None, None)];
            }
          }
      }
    }

    /** The rest of `handleSend`, once the remote model has answered: the
        image branch shows the first inline image or fails; the stream
        branch adds an empty model entry and grows it chunk by chunk. A
        failure adds an error entry. A reply that arrives whole is spoken
        when speech is on. Either way the exchange ends and the page stops
        loading. */
    method Complete(image: Result<seq<ResponsePart>, string>, stream: Stream, speech: Speech, clock: nat)
      requires Valid() && pending.Some?
      modifies this
      ensures Valid() && !isLoading && pending == None
      ensures input == old(input) && reasoningLogs == old(reasoningLogs)
      ensures var request := old(pending).value; var id := NatToString(clock + 1);
        messages == if request.isImageRequest
                    then old(messages) + ImageReply(image, speech, request.voiceEnabled, id)
                    else StreamReply(old(messages), stream, speech, request.voiceEnabled, id)
      ensures var request := old(pending).value;
        isSpeaking == if Replied(request.isImageRequest, image, stream) && Speaks(request.voiceEnabled, speech)
                      then false else old(isSpeaking)
    {
      var request := pending.value;
      var id := NatToString(clock + 1);
      if request.isImageRequest {
        FinishImage(image, speech, request.voiceEnabled, id);
      } else {
        FinishStream(stream, speech, request.voiceEnabled, id);
      }
      isLoading := false;
      pending := None;
    }

    /** The image branch: the first inline image as a data URL, or the
        image failure; the caption is spoken when speech is on. */
    method FinishImage(image: Result<seq<ResponsePart>, string>, speech: Speech, voiceEnabled: bool, id: string)
      modifies this
      ensures messages == old(messages) + ImageReply(image, speech, voiceEnabled, id)
      ensures isSpeaking == if Replied(true, image, Refused("")) && Speaks(voiceEnabled, speech)
                            then false else old(isSpeaking)
      ensures input == old(input) && isLoading == old(isLoading)
      ensures reasoningLogs == old(reasoningLogs) && pending == old(pending)
    {
      if image.Failure? {
        messages := messages + [ErrorTurn(id, image.error)];
      } else {
        var imageUrl := FindImageUrl(image.value);
        FirstInlineIsFirst(image.value);
        if imageUrl != "" {
          ghost var k :| Seqs.IsFirst(image.value, HasInline, k) && imageUrl == DataUrl(image.value[k].inlineData.value);
          messages := messages + [Message(id, Model, ImageCaption, false, Some(imageUrl), None)];
          if voiceEnabled {
            Speak(speech, id);
          }
        } else {
          messages := messages + [ErrorTurn(id, ImageFailure)];
        }
      }
    }

    /** The stream branch: an empty model entry grown chunk by chunk, then
        the error that broke the stream, or the reply spoken when speech is
        on. */
    method FinishStream(stream: Stream, speech: Speech, voiceEnabled: bool, id: string)
      modifies this
      ensures messages == StreamReply(old(messages), stream, speech, voiceEnabled, id)
      ensures isSpeaking == if Replied(false, Failure(""), stream) && Speaks(voiceEnabled, speech)
                            then false else old(isSpeaking)
      ensures input == old(input) && isLoading == old(isLoading)
      ensures reasoningLogs == old(reasoningLogs) && pending == old(pending)
    {
      if stream.Refused? {
        messages := messages + [ErrorTurn(id, stream.error)];
      } else {
        messages := messages + [Message(id, Model, "", false, None, None)];
        var fullText, grown := ReceiveStream(messages, id, stream.chunks);
        messages := grown;
        if stream.broken.Some? {
          messages := messages + [ErrorTurn(id, stream.broken.value)];
        } else if voiceEnabled {
          Speak(speech, id);
        }
      }
    }
  }
}
