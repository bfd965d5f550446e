/** The create page: the user types a text or picks a file, chooses the kind of material and
    how many items, and asks for generation. The page refuses when there is nothing to send,
    builds the request for the generation function, and on success opens the study page with
    the generated items; on failure it picks an error message from the error's text. The
    generation function itself and the browser's file reader are inputs of the model. */
module CreateStudySet {
  import opened Wrappers
  import opened Text
  import GenerateStudyContent
  import StudySession

  /** A picked file: its name and its MIME type (`file.type`). */
  datatype FileInfo = FileInfo(name: string, mime: string)

  /** The three kinds of material, with the names the request carries. */
  datatype GenerationType = Flashcards | QuizMultiple | QuizOpen {
    function Name(): (n: string)
      ensures n in {"flashcards", "quiz_multiple", "quiz_open"}
    {
      match this
      case Flashcards => "flashcards"
      case QuizMultiple => "quiz_multiple"
      case QuizOpen => "quiz_open"
    }
  }

  /** Different kinds have different names. */
  lemma NameInjective(a: GenerationType, b: GenerationType)
    requires a.Name() == b.Name()
    ensures a == b
  {
  }

  const DefaultTitle := "Set di Studio"
  const PlainText := "text/plain"

  const MissingInputToast := "Inserisci del testo o carica un file"
  const RateLimitToast := "Troppe richieste, riprova tra qualche secondo"
  const CreditsToast := "Crediti AI esauriti. Aggiungi crediti nelle impostazioni del workspace."
  const GenericToast := "Errore nella generazione. Riprova."

  // ---------------------------------------------------------------------------------------
  // The rules of the page

  /** `!textContent.trim() && !file`: nothing to generate from. */
  predicate NothingToSend(textContent: string, file: Option<FileInfo>) {
    Trim(textContent) == [] && file.None?
  }

  /** The Generate button's `disabled`: while loading, or when there is nothing to send. */
  predicate ButtonDisabled(loading: bool, textContent: string, file: Option<FileInfo>) {
    loading || NothingToSend(textContent, file)
  }

  /** Once the button is enabled, a click is never refused. */
  lemma EnabledButtonIsNeverRefused(loading: bool, textContent: string, file: Option<FileInfo>)
    ensures !ButtonDisabled(loading, textContent, file) ==> !NothingToSend(textContent, file)
  {
  }

  /** A picked file is always enough, and so is any text with a visible character. */
  lemma SomethingToSend(textContent: string, file: Option<FileInfo>, k: int)
    requires file.Some? || (0 <= k < |textContent| && !IsSpace(textContent[k]))
    ensures !NothingToSend(textContent, file)
  {
    if file.None? && Trim(textContent) == [] {
      TrimOfBlank(textContent, k);
    }
  }

  /** A string whose trim is empty is all white space. */
  lemma TrimOfBlank(s: string, k: int)
    requires 0 <= k < |s| && Trim(s) == []
    ensures IsSpace(s[k])
  {
    var e := TrimEnd(s);
    if k >= |e| {
    } else {
      assert TrimStart(e) == [];
      assert IsSpace(e[k]);
    }
  }

  /** `!!file && file.type !== "text/plain"`: the file is sent instead of the text unless it is
      plain text, which the page has already read into the text box. */
  function IsFileUpload(file: Option<FileInfo>): (b: bool)
    ensures b <==> file.Some? && file.value.mime != PlainText
  {
    file.Some? && file.value.mime != PlainText
  }

  /** What goes in `content`: the file's data URL for an upload, the text otherwise (for a
      plain-text file, the text box the file was read into). */
  function ContentToSend(textContent: string, file: Option<FileInfo>, dataUrl: string): (c: string)
    ensures IsFileUpload(file) ==> c == dataUrl
    ensures !IsFileUpload(file) ==> c == textContent
  {
    if IsFileUpload(file) then dataUrl else textContent
  }

  /** `title || "Set di Studio"`: never empty, and a given title is kept. */
  function RequestTitle(title: string): (t: string)
    ensures t != ""
    ensures title != "" ==> t == title
    ensures title == "" ==> t == DefaultTitle
  {
    if title == "" then DefaultTitle else title
  }

  /** The body sent to the generation function. `numQuestions` goes as it is: the 3 and 30 of
      the number field are only input attributes. */
  function BuildRequest(title: string, textContent: string, kind: GenerationType, numQuestions: int,
                        file: Option<FileInfo>, dataUrl: string): (r: GenerateStudyContent.Request)
    ensures r.kind == kind.Name() && r.numQuestions == numQuestions && r.title == RequestTitle(title)
    ensures r.isFile == IsFileUpload(file) && r.content == ContentToSend(textContent, file, dataUrl)
    ensures r.fileType == (if file.Some? then Some(file.value.mime) else None)
  {
    GenerateStudyContent.Request(
      ContentToSend(textContent, file, dataUrl), kind.Name(), numQuestions, RequestTitle(title),
      IsFileUpload(file), if file.Some? then Some(file.value.mime) else None)
  }

  /** The state handed to the study page: the returned items, the same title as the request
      and the requested type. */
  function NavigationFor(title: string, kind: GenerationType, items: Option<seq<StudySession.Item>>): (n: StudySession.NavState)
    ensures n.items == items && n.title == Some(RequestTitle(title)) && n.kind == Some(kind.Name())
  {
    StudySession.NavState(items, Some(RequestTitle(title)), Some(kind.Name()))
  }

  /** The study page opened after a generation runs in the requested mode, under the title
      that was sent, on the items that came back; and the generation function chose the
      prompt for that same mode. */
  lemma SessionMatchesRequest(title: string, textContent: string, kind: GenerationType, numQuestions: int,
                              file: Option<FileInfo>, dataUrl: string, items: seq<StudySession.Item>)
    ensures var req := BuildRequest(title, textContent, kind, numQuestions, file, dataUrl);
            var nav := Some(NavigationFor(title, kind, Some(items)));
            StudySession.SessionKind(nav) == req.kind
            && StudySession.SessionTitle(nav) == req.title
            && StudySession.SessionItems(nav) == items
    ensures GenerateStudyContent.PromptKindFor(kind.Name()) ==
      match kind
      case Flashcards => GenerateStudyContent.FlashcardPrompt
      case QuizMultiple => GenerateStudyContent.MultipleChoicePrompt
      case QuizOpen => GenerateStudyContent.OpenPrompt
  {
  }

  /** The system prompt the generation function builds from the request asks for exactly the
      count chosen on the page and gives the schema of the chosen type. */
  lemma PromptMatchesForm(title: string, textContent: string, kind: GenerationType, numQuestions: int,
                          file: Option<FileInfo>, dataUrl: string)
    ensures var req := BuildRequest(title, textContent, kind, numQuestions, file, dataUrl);
            var prompt := GenerateStudyContent.SystemPrompt(req.kind, req.numQuestions);
            GenerateStudyContent.RequestedCount(prompt) == Some(numQuestions)
            && Includes(prompt, GenerateStudyContent.Schema(GenerateStudyContent.PromptKindFor(kind.Name())))
  {
    GenerateStudyContent.SystemPromptAsksForCount(kind.Name(), numQuestions);
    GenerateStudyContent.SystemPromptStatesSchema(kind.Name(), numQuestions);
  }

  /** A plain-text file is not uploaded: the text box it was read into is sent, and reaches the
      model behind the text instruction. Even an empty plain-text file passes the guard, so the
      model can be sent no text at all. */
  lemma PlainTextGoesAsText(title: string, textContent: string, kind: GenerationType, numQuestions: int,
                            f: FileInfo, dataUrl: string)
    requires f.mime == PlainText
    ensures !NothingToSend(textContent, Some(f))
    ensures var req := BuildRequest(title, textContent, kind, numQuestions, Some(f), dataUrl);
            !req.isFile && req.content == textContent && req.fileType == Some(PlainText)
            && GenerateStudyContent.UserContent(req.isFile, req.fileType, req.content) ==
               GenerateStudyContent.TextNote + textContent
  {
  }

  /** For an upload, the generation function's message to the model names the file's type right
      after its opening words and ends with the file's data. */
  lemma UploadNamesFileType(title: string, textContent: string, kind: GenerationType, numQuestions: int,
                            file: Option<FileInfo>, dataUrl: string)
    requires IsFileUpload(file)
    ensures var req := BuildRequest(title, textContent, kind, numQuestions, file, dataUrl);
            var m := GenerateStudyContent.UserContent(req.isFile, req.fileType, req.content);
            OccursAt(m, file.value.mime, |GenerateStudyContent.FileNoteStart|)
            && m[|m| - |dataUrl|..] == dataUrl
  {
  }

  /** The error message shown for a failed generation, chosen by the error's text: `429` wins
      over `402`, and an error without a message gets the generic text. */
  function ClassifyFailure(message: Option<string>): (t: string)
    ensures message.Some? && Includes(message.value, "429") ==> t == RateLimitToast
    ensures message.Some? && !Includes(message.value, "429") && Includes(message.value, "402") ==>
      t == CreditsToast
    ensures message.None? || (!Includes(message.value, "429") && !Includes(message.value, "402")) ==>
      t == GenericToast
  {
    if message.Some? && Includes(message.value, "429") then RateLimitToast
    else if message.Some? && Includes(message.value, "402") then CreditsToast
    else GenericToast
  }

  /** An error text holding both codes is reported as a rate limit. */
  lemma BothCodesMeanRateLimit(a: string, b: string, c: string)
    ensures ClassifyFailure(Some(a + "429" + b + "402" + c)) == RateLimitToast
    ensures ClassifyFailure(Some(a + "402" + b + "429" + c)) == RateLimitToast
  {
    var m1 := a + "429" + b + "402" + c;
    assert OccursAt(m1, "429", |a|);
    var m2 := a + "402" + b + "429" + c;
    assert m2[|a| + 3 + |b|..|a| + 3 + |b| + 3] == "429";
    assert OccursAt(m2, "429", |a| + 3 + |b|);
  }

  // ---------------------------------------------------------------------------------------
  // The page

  /** What the generation function gave back: the parsed body's `items` (absent if the body
      holds none), or an error with its message, if any. */
  datatype InvokeReply = Returned(items: Option<seq<StudySession.Item>>) | Raised(message: Option<string>)

  /** What a click on Generate ends in: the refusal toast, the study page opened with a
      navigation state, or an error toast. */
  datatype Outcome = Refused(toast: string) | Opened(nav: StudySession.NavState) | Failed(toast: string)

  /** The form state and the loading flag. */
  class Page {
    var title: string
    var textContent: string
    var generationType: GenerationType
    var numQuestions: int
    var loading: bool
    var file: Option<FileInfo>

    constructor ()
      ensures title == "" && textContent == "" && generationType == Flashcards
      ensures numQuestions == 10 && !loading && file.None?
    {
      title := "";
      textContent := "";
      generationType := Flashcards;
      numQuestions := 10;
      loading := false;
      file := None;
    }

    /** The number field: `setNumQuestions(Number(value))`, with no clamping. */
    method SetNumQuestions(n: int)
      modifies this`numQuestions
      ensures numQuestions == n
    {
      numQuestions := n;
    }

    /** `handleFileChange`. A picked file replaces the previous one; a plain-text file is also
        read into the text box (`result || ""`, with `readResult` what the reader yields). No
        pick changes nothing. */
    method HandleFileChange(picked: Option<FileInfo>, readResult: Option<string>)
      modifies this`file, this`textContent
      ensures picked.None? ==> file == old(file) && textContent == old(textContent)
      ensures picked.Some? ==> file == picked
      ensures picked.Some? && picked.value.mime == PlainText ==>
        textContent == (if readResult.Some? then readResult.value else "")
      ensures picked.Some? && picked.value.mime != PlainText ==> textContent == old(textContent)
      ensures old(file).Some? ==> file.Some?
    {
      if picked.Some? {
        file := picked;
        if picked.value.mime == PlainText {
          textContent := if readResult.Some? then readResult.value else "";
        }
      }
    }

    /** `handleGenerate`. With nothing to send it only shows a toast: no request, `loading`
        untouched. Otherwise it sends one request, opens the study page or reports the error,
        and `loading` ends false either way. `dataUrl` is what the file reader yields for an
        upload, `reply` what the generation function answers. */
    method HandleGenerate(dataUrl: string, reply: InvokeReply) returns (sent: Option<GenerateStudyContent.Request>, outcome: Outcome)
      modifies this`loading
      ensures NothingToSend(textContent, file) ==>
        sent.None? && outcome == Refused(MissingInputToast) && loading == old(loading)
      ensures !NothingToSend(textContent, file) ==>
        sent == Some(BuildRequest(title, textContent, generationType, numQuestions, file, dataUrl))
        && !loading
      ensures !NothingToSend(textContent, file) && reply.Returned? ==>
        outcome == Opened(NavigationFor(title, generationType, reply.items))
      ensures !NothingToSend(textContent, file) && reply.Raised? ==>
        outcome == Failed(ClassifyFailure(reply.message))
    {
      if Trim(textContent) == [] && file.None? {
        return None, Refused(MissingInputToast);
      }
      loading := true;
      var contentToSend := textContent;
      if file.Some? && file.value.mime != PlainText {
        contentToSend := dataUrl;
      }
      var request := GenerateStudyContent.Request(
        contentToSend, generationType.Name(), numQuestions, RequestTitle(title),
        file.Some? && file.value.mime != PlainText, if file.Some? then Some(file.value.mime) else None);
      sent := Some(request);
      match reply {
        case Returned(items) =>
          outcome := Opened(StudySession.NavState(items, Some(RequestTitle(title)), Some(generationType.Name())));
        case Raised(message) =>
          outcome := Failed(ClassifyFailure(message));
      }
      loading := false;
    }
  }
}
