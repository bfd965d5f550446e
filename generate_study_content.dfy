/** The `generate-study-content` serverless function: it chooses a system prompt by the
    requested item type, wraps the user's text or file in an instruction, makes one call to the
    AI chat-completion gateway, and relays the reply after stripping markdown code fences, or
    answers with an error status. The gateway, the environment and the JSON parser are
    parameters of the model. */
module GenerateStudyContent {
  import opened Wrappers
  import opened Text
  import Decimal

  /** The inbound body `{ content, type, numQuestions, title, isFile, fileType }`; `title` is
      received but never used. */
  datatype Request = Request(
    content: string,
    kind: string,
    numQuestions: int,
    title: string,
    isFile: bool,
    fileType: Option<string>)

  /** What goes to the gateway: the model identifier, the system message and the user message. */
  datatype ChatRequest = ChatRequest(model: string, system: string, user: string)

  const ModelId := "google/gemini-3-flash-preview"

  /** A response body: none (the CORS pre-flight), the re-serialised parse of the cleaned
      reply, `{ "error": message }`, or `{ "error": ... }` carrying the message of an exception
      raised by the runtime (a failed `fetch` or JSON parse; a text this model does not fix). */
  datatype Body = NoBody | Relayed(json: string) | Error(message: string) | RuntimeError

  datatype Response = Response(status: int, body: Body)

  // ---------------------------------------------------------------------------------------
  // System prompt

  /** The three prompt templates; any `type` other than the first two gets the open-question one. */
  datatype PromptKind = FlashcardPrompt | MultipleChoicePrompt | OpenPrompt

  function PromptKindFor(kind: string): (k: PromptKind)
    ensures k == FlashcardPrompt <==> kind == "flashcards"
    ensures k == MultipleChoicePrompt <==> kind == "quiz_multiple"
    ensures k == OpenPrompt <==> kind != "flashcards" && kind != "quiz_multiple"
  {
    if kind == "flashcards" then FlashcardPrompt
    else if kind == "quiz_multiple" then MultipleChoicePrompt
    else OpenPrompt
  }

  const PromptIntro := "Sei un esperto educatore. Crea esattamente "
  const ReplyRules :=
    "Rispondi SOLO con un JSON valido, senza markdown, senza backtick, senza testo aggiuntivo.\n"
    + "Il formato deve essere:\n"

  /** What each template asks for, right after the count. */
  function ItemNoun(k: PromptKind): string {
    match k
    case FlashcardPrompt => "flashcard"
    case MultipleChoicePrompt => "domande a risposta multipla"
    case OpenPrompt => "domande a risposta aperta"
  }

  /** The JSON shape each template prescribes. */
  function Schema(k: PromptKind): string {
    match k
    case FlashcardPrompt => "{\"items\": [{\"front\": \"domanda\", \"back\": \"risposta\"}]}"
    case MultipleChoicePrompt =>
      "{\"items\": [{\"question\": \"domanda\", \"options\": [\"opzione1\", \"opzione2\", "
      + "\"opzione3\", \"opzione4\"], \"correct_answer\": \"opzione_corretta\"}]}"
    case OpenPrompt => "{\"items\": [{\"question\": \"domanda\", \"correct_answer\": \"risposta_corretta\"}]}"
  }

  /** The closing instruction of each template. */
  function Closing(k: PromptKind): string {
    match k
    case FlashcardPrompt => "Le flashcard devono essere chiare, concise e utili per lo studio."
    case MultipleChoicePrompt =>
      "Ogni domanda deve avere esattamente 4 opzioni. La correct_answer deve essere una delle opzioni."
    case OpenPrompt => "Le risposte devono essere concise ma complete."
  }

  /** Everything after the item count: what to create, then the rest of the template. */
  function PromptTail(k: PromptKind): string {
    " " + ItemNoun(k) + PromptRest(k)
  }

  /** The template after the item noun. The flashcard template has a space before its first
      line break; the other two do not. */
  function PromptRest(k: PromptKind): string {
    Lead(k) + Schema(k) + "\n" + Closing(k)
  }

  /** The end of the first line and the reply rules. */
  function Lead(k: PromptKind): string {
    Source(k) + ReplyRules
  }

  /** Where the items come from, up to the end of the first line. */
  function Source(k: PromptKind): string {
    " dal contenuto fornito." + (if k == FlashcardPrompt then " \n" else "\n")
  }

  /** The template `k` with the item count written in. */
  function PromptText(k: PromptKind, numQuestions: int): string {
    PromptIntro + Decimal.Show(numQuestions) + PromptTail(k)
  }

  /** The system prompt for a requested `type`. */
  function SystemPrompt(kind: string, numQuestions: int): string {
    PromptText(PromptKindFor(kind), numQuestions)
  }

  /** Reads back the item count a prompt asks for. */
  function RequestedCount(prompt: string): Option<int> {
    CountAfter(PromptIntro, prompt)
  }

  /** The integer right after `intro`, if `prompt` starts with it. */
  function CountAfter(intro: string, prompt: string): Option<int> {
    if intro <= prompt then Decimal.ReadInt(prompt[|intro|..]) else None
  }

  /** A count written after any opening words reads back when a space follows it. */
  lemma CountAfterShow(intro: string, numQuestions: int, tail: string)
    requires tail != [] && tail[0] == ' '
    ensures CountAfter(intro, intro + Decimal.Show(numQuestions) + tail) == Some(numQuestions)
  {
    var p := intro + Decimal.Show(numQuestions) + tail;
    Decimal.ReadShow(numQuestions, tail);
    assert p[|intro|..] == Decimal.Show(numQuestions) + tail;
  }

  /** Whatever follows the count, if it starts with a space the count reads back. */
  lemma CountReadsBack(numQuestions: int, tail: string)
    requires tail != [] && tail[0] == ' '
    ensures RequestedCount(PromptIntro + Decimal.Show(numQuestions) + tail) == Some(numQuestions)
  {
    CountAfterShow(PromptIntro, numQuestions, tail);
  }

  lemma TailStartsWithSpace(k: PromptKind)
    ensures PromptTail(k) != [] && PromptTail(k)[0] == ' '
  {
  }

  /** Every prompt asks for exactly `numQuestions` items. */
  lemma PromptAsksForCount(k: PromptKind, numQuestions: int)
    ensures RequestedCount(PromptText(k, numQuestions)) == Some(numQuestions)
  {
    TailStartsWithSpace(k);
    CountReadsBack(numQuestions, PromptTail(k));
  }

  /** Whatever the requested type, the system prompt asks for exactly `numQuestions` items. */
  lemma SystemPromptAsksForCount(kind: string, numQuestions: int)
    ensures RequestedCount(SystemPrompt(kind, numQuestions)) == Some(numQuestions)
  {
    PromptAsksForCount(PromptKindFor(kind), numQuestions);
  }

  /** The words after the count name what to create, so the three prompts tell apart the
      kinds of material. */
  lemma PromptNamesItems(k: PromptKind, numQuestions: int)
    ensures OccursAt(PromptText(k, numQuestions), ItemNoun(k), |PromptIntro| + |Decimal.Show(numQuestions)| + 1)
  {
    SpaceThenMiddle(PromptIntro + Decimal.Show(numQuestions), ItemNoun(k), PromptRest(k));
  }

  /** Every prompt carries the reply rules (JSON only, no markdown, no backticks, no other text)
      and the JSON schema of its kind. */
  lemma PromptStatesFormat(k: PromptKind, numQuestions: int)
    ensures Includes(PromptText(k, numQuestions), ReplyRules)
    ensures Includes(PromptText(k, numQuestions), Schema(k))
  {
    var a := PromptIntro + Decimal.Show(numQuestions);
    LeadAndSchemaIncluded(a, ItemNoun(k), Lead(k), Schema(k), "\n", Closing(k));
    EndIncluded(Source(k), ReplyRules);
    IncludesTransitive(PromptText(k, numQuestions), Lead(k), ReplyRules);
  }

  /** Whatever the requested type and count, the system prompt tells the model to answer with
      JSON only and gives the schema of the items of that type. */
  lemma SystemPromptStatesSchema(kind: string, numQuestions: int)
    ensures Includes(SystemPrompt(kind, numQuestions), ReplyRules)
    ensures Includes(SystemPrompt(kind, numQuestions), Schema(PromptKindFor(kind)))
  {
    PromptStatesFormat(PromptKindFor(kind), numQuestions);
  }

  /** The parts of a template after the item noun occur in it, whatever the parts are. */
  lemma LeadAndSchemaIncluded(a: string, n: string, l: string, sc: string, d: string, c: string)
    ensures Includes(a + (" " + n + (l + sc + d + c)), l)
    ensures Includes(a + (" " + n + (l + sc + d + c)), sc)
  {
    var t := a + (" " + n + (l + sc + d + c));
    assert t == (a + " " + n) + l + (sc + d + c);
    OccursInMiddle(a + " " + n, l, sc + d + c);
    assert t == (a + " " + n + l) + sc + (d + c);
    OccursInMiddle(a + " " + n + l, sc, d + c);
  }

  /** The second part of a concatenation occurs in it. */
  lemma EndIncluded(a: string, b: string)
    ensures Includes(a + b, b)
  {
    assert a + b == a + b + [];
    OccursInMiddle(a, b, []);
  }

  /** A part that follows a space after a prefix occurs right after the space. */
  lemma SpaceThenMiddle(a: string, b: string, c: string)
    ensures OccursAt(a + (" " + b + c), b, |a| + 1)
  {
    assert a + (" " + b + c) == (a + " ") + b + c;
    OccursInMiddle(a + " ", b, c);
  }

  // ---------------------------------------------------------------------------------------
  // User message

  const FileNoteStart := "Questo è un file "
  const CodedIn := " codificato in "
  const Base64 := "base64"
  const NoteRequest := ". Analizza il contenuto e genera il materiale di studio: "
  const FileNoteEnd := CodedIn + Base64 + NoteRequest
  const TextNote := "Genera materiale di studio da questo testo:\n\n"

  /** The whole note in front of a file's content. */
  function FileNote(fileType: Option<string>): string {
    FileNoteStart + FileTypeText(fileType) + FileNoteEnd
  }

  /** The note tells the model that the file's content is base64. */
  lemma FileNoteSaysBase64(fileType: Option<string>)
    ensures OccursAt(FileNote(fileType), Base64, |FileNoteStart| + |FileTypeText(fileType)| + |CodedIn|)
  {
    ThirdPartOccurs(FileNoteStart + FileTypeText(fileType), CodedIn, Base64, NoteRequest);
  }

  lemma ThirdPartOccurs(a: string, p: string, b: string, c: string)
    ensures OccursAt(a + (p + b + c), b, |a| + |p|)
  {
    assert a + (p + b + c) == (a + p) + b + c;
    OccursInMiddle(a + p, b, c);
  }

  /** `${fileType}`: a missing file type is written as `undefined`. */
  function FileTypeText(fileType: Option<string>): string {
    match fileType
    case Some(t) => t
    case None => "undefined"
  }

  /** The user message: a note naming the base64 file type, or the fixed text request, followed
      by the content verbatim. The message tells which form it is by its start. */
  function UserContent(isFile: bool, fileType: Option<string>, content: string): (m: string)
    ensures |content| <= |m| && m[|m| - |content|..] == content
    ensures isFile <==> FileNoteStart <= m
    ensures isFile ==> OccursAt(m, FileTypeText(fileType), |FileNoteStart|)
    ensures isFile ==> FileNote(fileType) <= m && |m| == |FileNote(fileType)| + |content|
    ensures !isFile ==> TextNote <= m && |m| == |TextNote| + |content|
  {
    if isFile then
      var m := FileNoteStart + FileTypeText(fileType) + FileNoteEnd + content;
      assert m[|FileNoteStart|..|FileNoteStart| + |FileTypeText(fileType)|] == FileTypeText(fileType);
      m
    else
      var m := TextNote + content;
      assert !(FileNoteStart <= m) by {
        assert m[13] == TextNote[13] == 'a' && FileNoteStart[13] == 'i';
      }
      m
  }

  /** The note before the content depends only on `isFile` and `fileType`, so two messages of the
      same form are equal exactly when their contents are. */
  lemma UserContentInjective(isFile: bool, fileType: Option<string>, c1: string, c2: string)
    requires UserContent(isFile, fileType, c1) == UserContent(isFile, fileType, c2)
    ensures c1 == c2
  {
    var note := if isFile then FileNoteStart + FileTypeText(fileType) + FileNoteEnd else TextNote;
    assert UserContent(isFile, fileType, c1) == note + c1;
    assert UserContent(isFile, fileType, c2) == note + c2;
    assert c1 == (note + c1)[|note|..];
    assert c2 == (note + c2)[|note|..];
  }

  // ---------------------------------------------------------------------------------------
  // Upstream status and reply

  /** What the gateway answered: its HTTP status and a body that either is not JSON or holds
      `choices[0].message.content`, which may be missing; or no answer at all, when `fetch`
      itself rejects (a network failure). */
  datatype Payload = Unreadable | Readable(content: Option<string>)
  datatype UpstreamReply = UpstreamReply(status: int, payload: Payload) | TransportFailed

  /** `response.ok`. */
  predicate IsOk(status: int) {
    200 <= status <= 299
  }

  const RateLimitMessage := "Rate limit exceeded"
  const PaymentMessage := "Payment required"
  const GatewayMessage := "AI gateway error"
  const NoContentMessage := "No content from AI"
  const MissingKeyMessage := "LOVABLE_API_KEY is not configured"

  /** The response to a non-ok gateway status: 429 and 402 are passed on with their own
      messages, every other status becomes a generic 500. */
  function GatewayFailure(status: int): (r: Response)
    requires !IsOk(status)
    ensures r.status == 429 <==> status == 429
    ensures r.status == 402 <==> status == 402
    ensures r.status != 429 && r.status != 402 ==> r.status == 500
    ensures r.body.Error?
    ensures r.body.message == (if status == 429 then RateLimitMessage
                               else if status == 402 then PaymentMessage
                               else GatewayMessage)
  {
    if status == 429 then Response(429, Error(RateLimitMessage))
    else if status == 402 then Response(402, Error(PaymentMessage))
    else Response(500, Error(GatewayMessage))
  }

  /** The gateway answered with a `response.ok` status. */
  predicate OkReply(reply: UpstreamReply) {
    reply.UpstreamReply? && IsOk(reply.status)
  }

  /** `!aiContent`: the content is missing or empty. */
  predicate NoContent(content: Option<string>) {
    content.None? || content.value == ""
  }

  /** What the function answers once the gateway call has settled. `isJson` says which strings
      the runtime's JSON parser accepts. Every exception thrown after the call (a rejected
      `fetch`, an unreadable body, a cleaned reply that is not JSON) ends in the catch block's
      500. */
  function Relay(reply: UpstreamReply, isJson: string -> bool): (r: Response)
    ensures reply.TransportFailed? ==> r == Response(500, RuntimeError)
    ensures reply.UpstreamReply? && !IsOk(reply.status) ==> r == GatewayFailure(reply.status)
    ensures OkReply(reply) && reply.payload.Unreadable? ==> r == Response(500, RuntimeError)
    ensures OkReply(reply) && reply.payload.Readable? && NoContent(reply.payload.content) ==>
      r == Response(500, Error(NoContentMessage))
    ensures OkReply(reply) && reply.payload.Readable? && !NoContent(reply.payload.content) &&
            !isJson(CleanContent(reply.payload.content.value)) ==>
      r == Response(500, RuntimeError)
    ensures r.status == 200 <==>
      OkReply(reply) && reply.payload.Readable? && !NoContent(reply.payload.content)
      && isJson(CleanContent(reply.payload.content.value))
    ensures r.status == 200 ==> r.body == Relayed(CleanContent(reply.payload.content.value))
    ensures r.status in {200, 402, 429, 500}
  {
    if reply.TransportFailed? then Response(500, RuntimeError)
    else if !IsOk(reply.status) then GatewayFailure(reply.status)
    else match reply.payload
      case Unreadable => Response(500, RuntimeError)
      case Readable(content) =>
        if NoContent(content) then Response(500, Error(NoContentMessage))
        else
          var clean := CleanContent(content.value);
          if isJson(clean) then Response(200, Relayed(clean)) else Response(500, RuntimeError)
  }

  // ---------------------------------------------------------------------------------------
  // Markdown fence stripping

  const Fence := "```"

  /** Three backticks start at index `i` of `s`. */
  predicate FenceAt(s: string, i: int) {
    0 <= i && i + 3 <= |s| && s[i] == '`' && s[i + 1] == '`' && s[i + 2] == '`'
  }

  /** Where the regular expression `/```json?\n?/` can start to match: three backticks and
      `jso` (the `?` makes only the `n` optional). */
  predicate OpenerAt(s: string, i: int) {
    FenceAt(s, i) && i + 6 <= |s| && s[i + 3] == 'j' && s[i + 4] == 's' && s[i + 5] == 'o'
  }

  /** `s.replace(/```json?\n?/g, "")`: left to right, every match of three backticks, `jso`,
      an optional `n` and an optional newline is removed. */
  function StripOpeners(s: string): string
    decreases |s|
  {
    if OpenerAt(s, 0) then
      var a := s[6..];
      var b := if a != [] && a[0] == 'n' then a[1..] else a;
      var c := if b != [] && b[0] == '\n' then b[1..] else b;
      StripOpeners(c)
    else if s == [] then []
    else [s[0]] + StripOpeners(s[1..])
  }

  /** The string starts with two backticks. */
  predicate TwoTicks(s: string) {
    |s| >= 2 && s[0] == '`' && s[1] == '`'
  }

  /** `s.replace(/```/g, "")`: left to right, every run of three backticks is removed. Nothing
      that is left forms three backticks again. */
  function RemoveFences(s: string): (r: string)
    ensures forall i :: !FenceAt(r, i)
    ensures s != [] && s[0] != '`' ==> r != [] && r[0] == s[0]
    ensures !TwoTicks(s) ==> !TwoTicks(r)
    decreases |s|
  {
    if FenceAt(s, 0) then RemoveFences(s[3..])
    else if s == [] then []
    else
      var rest := RemoveFences(s[1..]);
      var r := [s[0]] + rest;
      assert !FenceAt(r, 0) by {
        if FenceAt(r, 0) {
          assert TwoTicks(rest);
          assert TwoTicks(s[1..]);
          assert FenceAt(s, 0);
        }
      }
      assert forall i :: 1 <= i ==> !FenceAt(r, i) by {
        forall i | 1 <= i ensures !FenceAt(r, i) {
          assert !FenceAt(rest, i - 1);
        }
      }
      r
  }

  /** Lines 81-84: trim the reply; if it starts with a fence, remove the `json` openers and then
      every remaining fence, and trim again. */
  function CleanContent(aiContent: string): (r: string)
    ensures IsTrimmed(r)
    ensures !FenceAt(Trim(aiContent), 0) ==> r == Trim(aiContent)
    ensures FenceAt(Trim(aiContent), 0) ==> forall i :: !FenceAt(r, i)
  {
    var t := Trim(aiContent);
    if FenceAt(t, 0) then
      var r := Trim(RemoveFences(StripOpeners(t)));
      NoFenceSurvivesTrim(RemoveFences(StripOpeners(t)));
      r
    else t
  }

  /** `startsWith` of three backticks is `FenceAt` index 0. */
  lemma StartsWithFence(s: string)
    ensures Fence <= s <==> FenceAt(s, 0)
  {
    if FenceAt(s, 0) {
      assert s[..3] == Fence;
    }
  }

  /** The cleaning rule in the terms of the source: if the trimmed reply does not start with
      three backticks it is the result; if it does, no three backticks are left anywhere. */
  lemma CleanContentFences(aiContent: string)
    ensures !(Fence <= Trim(aiContent)) ==> CleanContent(aiContent) == Trim(aiContent)
    ensures Fence <= Trim(aiContent) ==> !Includes(CleanContent(aiContent), Fence)
  {
    StartsWithFence(Trim(aiContent));
    if FenceAt(Trim(aiContent), 0) {
      NoFenceMeansNotIncluded(CleanContent(aiContent));
    }
  }

  /** Three backticks occur at `i` in the sense of `includes` exactly when `FenceAt` says so. */
  lemma FenceOccursAt(s: string, i: int)
    ensures OccursAt(s, Fence, i) <==> FenceAt(s, i)
  {
    if FenceAt(s, i) {
      assert s[i..i + 3] == Fence;
    }
    if OccursAt(s, Fence, i) {
      assert s[i..i + 3][0] == s[i] && s[i..i + 3][1] == s[i + 1] && s[i..i + 3][2] == s[i + 2];
    }
  }

  lemma NoFenceMeansNotIncluded(s: string)
    requires forall i :: !FenceAt(s, i)
    ensures !Includes(s, Fence)
  {
    forall i ensures !OccursAt(s, Fence, i) {
      FenceOccursAt(s, i);
    }
  }

  lemma NotIncludedMeansNoFence(s: string)
    requires !Includes(s, Fence)
    ensures forall i :: !FenceAt(s, i)
  {
    forall i ensures !FenceAt(s, i) {
      FenceOccursAt(s, i);
    }
  }

  /** `trim` keeps a slice, so it cannot create three backticks. */
  lemma NoFenceSurvivesTrim(s: string)
    requires forall i :: !FenceAt(s, i)
    ensures forall i :: !FenceAt(Trim(s), i)
  {
    var e := |TrimEnd(s)|;
    NoFenceInSlice(s, e - |Trim(s)|, e);
  }

  /** A slice of a string without three backticks has none either. */
  lemma NoFenceInSlice(s: string, a: int, b: int)
    requires 0 <= a <= b <= |s|
    requires forall i :: !FenceAt(s, i)
    ensures forall i :: !FenceAt(s[a..b], i)
  {
    forall i ensures !FenceAt(s[a..b], i) {
      if 0 <= i && i + 3 <= b - a {
        assert !FenceAt(s, a + i);
      }
    }
  }

  /** Cleaning is idempotent: a cleaned reply is cleaned to itself. */
  lemma CleanIdempotent(aiContent: string)
    ensures CleanContent(CleanContent(aiContent)) == CleanContent(aiContent)
  {
    var r := CleanContent(aiContent);
    TrimOfTrimmed(r);
    if !FenceAt(Trim(aiContent), 0) {
      TrimIdempotent(aiContent);
    }
  }

  /** A string with no three backticks is left alone by the opener regex. */
  lemma {:induction false} StripOpenersNoOpener(s: string)
    requires forall i :: !OpenerAt(s, i)
    ensures StripOpeners(s) == s
    decreases |s|
  {
    if s != [] {
      assert !OpenerAt(s, 0);
      forall i ensures !OpenerAt(s[1..], i) {
        if OpenerAt(s[1..], i) {
          assert OpenerAt(s, i + 1);
        }
      }
      StripOpenersNoOpener(s[1..]);
    }
  }

  /** A closing fence on its own line after a fence-free body: the body and the newline are kept,
      the fence is removed. */
  lemma {:induction false} RemoveClosingFence(x: string)
    requires forall i :: !FenceAt(x, i)
    ensures RemoveFences(x + "\n```") == x + "\n"
    decreases |x|
  {
    var s := x + "\n```";
    if x == [] {
      assert s == "\n```";
      assert s[1..] == Fence;
      assert RemoveFences(Fence) == RemoveFences([]);
    } else {
      assert !FenceAt(s, 0) by {
        if |x| >= 3 { assert !FenceAt(x, 0); }
      }
      forall i ensures !FenceAt(x[1..], i) {
        if FenceAt(x[1..], i) { assert FenceAt(x, i + 1); }
      }
      assert s[1..] == x[1..] + "\n```";
      RemoveClosingFence(x[1..]);
    }
  }

  /** A fence-free body followed by a closing fence on its own line contains no opener. */
  lemma NoOpenerBeforeClosingFence(x: string)
    requires forall i :: !FenceAt(x, i)
    ensures forall i :: !OpenerAt(x + "\n```", i)
  {
    var s := x + "\n```";
    forall i ensures !OpenerAt(s, i) {
      if 0 <= i && i + 3 <= |x| {
        assert !FenceAt(x, i);
        assert s[i] == x[i] && s[i + 1] == x[i + 1] && s[i + 2] == x[i + 2];
      } else if 0 <= i <= |x| {
        assert s[|x|] == '\n';
      }
    }
  }

  /** A block that opens and closes with a backtick is already trimmed. */
  lemma FencedBlockTrimmed(open: string, rest: string)
    requires open != [] && open[0] == '`'
    requires rest != [] && rest[|rest| - 1] == '`'
    ensures IsTrimmed(open + rest)
  {
    var s := open + rest;
    assert s[0] == open[0] && s[|s| - 1] == rest[|rest| - 1];
  }

  /** A trimmed reply that starts with a fence is cleaned by the two regular expressions and a
      final trim. */
  lemma CleanOfFenced(s: string)
    requires IsTrimmed(s) && FenceAt(s, 0)
    ensures CleanContent(s) == Trim(RemoveFences(StripOpeners(s)))
  {
    TrimOfTrimmed(s);
  }

  /** The opening line "```json" and its newline are removed in one match. */
  lemma JsonOpenerStripped(body: string)
    requires forall i :: !OpenerAt(body, i)
    ensures StripOpeners("```json\n" + body) == body
  {
    var s := "```json\n" + body;
    assert OpenerAt(s, 0);
    assert s[6..] == "n\n" + body;
    assert ("n\n" + body)[1..] == "\n" + body;
    assert ("\n" + body)[1..] == body;
    StripOpenersNoOpener(body);
  }

  /** A bare fence followed by a newline is not an opener (it lacks `jso`), and neither is
      anything after it when the rest has none. */
  lemma BareOpenerAbsent(body: string)
    requires forall i :: !OpenerAt(body, i)
    ensures forall i :: !OpenerAt(Fence + "\n" + body, i)
  {
    var s := Fence + "\n" + body;
    forall i ensures !OpenerAt(s, i) {
      if 4 <= i && i + 6 <= |s| {
        assert !OpenerAt(body, i - 4);
        assert s[i] == body[i - 4] && s[i + 1] == body[i - 3] && s[i + 2] == body[i - 2];
        assert s[i + 3] == body[i - 1] && s[i + 4] == body[i] && s[i + 5] == body[i + 1];
      } else if 0 <= i < 4 {
        assert s[3] == '\n';
      }
    }
  }

  /** Both regular expressions applied to a `json` code block around a fence-free body leave
      the body and its final newline. */
  lemma JsonBlockStripped(x: string)
    requires forall i :: !FenceAt(x, i)
    ensures RemoveFences(StripOpeners("```json\n" + (x + "\n```"))) == x + "\n"
  {
    NoOpenerBeforeClosingFence(x);
    JsonOpenerStripped(x + "\n```");
    RemoveClosingFence(x);
  }

  /** A reply fenced as a `json` code block is cleaned to its trimmed body. */
  lemma CleanJsonFenced(x: string)
    requires !Includes(x, Fence)
    ensures CleanContent("```json\n" + x + "\n```") == Trim(x)
  {
    NotIncludedMeansNoFence(x);
    var s := "```json\n" + (x + "\n```");
    assert "```json\n" + x + "\n```" == s;
    FencedBlockTrimmed("```json\n", x + "\n```");
    CleanOfFenced(s);
    JsonBlockStripped(x);
    TrimDropsTrailingSpace(x, '\n');
  }

  /** A reply without fences is only trimmed, so it is cleaned to the same text as the fenced
      block holding it. */
  lemma CleanUnfenced(x: string)
    requires !Includes(x, Fence)
    ensures CleanContent(x) == Trim(x)
  {
    NotIncludedMeansNoFence(x);
    NoFenceSurvivesTrim(x);
  }

  /** A reply fenced without a language tag is cleaned to its trimmed body as well. */
  lemma CleanBareFenced(x: string)
    requires !Includes(x, Fence)
    ensures CleanContent("```\n" + x + "\n```") == Trim(x)
  {
    NotIncludedMeansNoFence(x);
    var body := x + "\n```";
    var inner := "\n" + body;
    var s := Fence + inner;
    assert "```\n" + x + "\n```" == s;
    assert Fence + "\n" + body == s;
    FencedBlockTrimmed(Fence, inner);
    CleanOfFenced(s);
    NoOpenerBeforeClosingFence(x);
    BareOpenerAbsent(body);
    StripOpenersNoOpener(s);
    assert s[3..] == inner;
    assert inner[1..] == body;
    RemoveClosingFence(x);
    assert RemoveFences(inner) == ['\n'] + (x + "\n");
    TrimDropsLeadingSpace('\n', x + "\n");
    TrimDropsTrailingSpace(x, '\n');
  }

  // ---------------------------------------------------------------------------------------
  // The request handler

  /** `!LOVABLE_API_KEY`: the key is unset or empty. */
  predicate KeyMissing(apiKey: Option<string>) {
    apiKey.None? || apiKey.value == ""
  }

  /** One invocation. `body` is the parsed request (`None` when `req.json()` fails), `apiKey`
      the environment's key, `reply` what the gateway answers if it is called, and `isJson`
      which strings the JSON parser accepts. `sent` lists the gateway calls made. */
  method Handle(httpMethod: string, body: Option<Request>, apiKey: Option<string>,
                reply: UpstreamReply, isJson: string -> bool)
    returns (resp: Response, sent: seq<ChatRequest>)
    ensures |sent| <= 1
    ensures httpMethod == "OPTIONS" ==> resp == Response(200, NoBody) && sent == []
    ensures httpMethod != "OPTIONS" && body.None? ==> resp == Response(500, RuntimeError) && sent == []
    ensures httpMethod != "OPTIONS" && body.Some? && KeyMissing(apiKey) ==>
      resp == Response(500, Error(MissingKeyMessage)) && sent == []
    ensures httpMethod != "OPTIONS" && body.Some? && !KeyMissing(apiKey) ==>
      sent == [ChatRequest(ModelId, SystemPrompt(body.value.kind, body.value.numQuestions),
                           UserContent(body.value.isFile, body.value.fileType, body.value.content))]
      && resp == Relay(reply, isJson)
    ensures resp.status in {200, 402, 429, 500}
  {
    sent := [];
    if httpMethod == "OPTIONS" {
      return Response(200, NoBody), sent;
    }
    if body.None? {
      return Response(500, RuntimeError), sent;
    }
    var req := body.value;
    if KeyMissing(apiKey) {
      return Response(500, Error(MissingKeyMessage)), sent;
    }
    var systemPrompt := SystemPrompt(req.kind, req.numQuestions);
    var userContent := UserContent(req.isFile, req.fileType, req.content);
    sent := [ChatRequest(ModelId, systemPrompt, userContent)];
    resp := Relay(reply, isJson);
  }
}
