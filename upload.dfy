/** `POST /api/upload`: checks the caller and the form, stores the file,
    records it, extracts its text, cuts the text into pieces, embeds them and
    saves one document row per piece. Authentication, storage, the tables,
    the text extractors, the splitter and the embedding endpoint are oracles
    whose answers are parameters. */
module Upload {
  import opened Wrappers
  import opened Text

  const MaxUploadBytes: nat := 5 * 1024 * 1024
  const PdfType: string := "application/pdf"
  const PlainTextType: string := "text/plain"

  const UnauthorizedText: string := "Unauthorized"
  const MissingFieldText: string := "Missing file or chatId"
  const TooLargeText: string := "File size exceeds 5MB limit"
  const UploadFailedText: string := "Failed to upload file"
  const UnsupportedText: string := "Unsupported file type. Please upload a PDF or TXT file."
  const EmptyFileText: string := "File is empty"
  const StoreFailedText: string := "Failed to store embeddings"
  const InternalErrorText: string := "Internal Server Error"

  /** The uploaded `File`: its name, size in bytes and MIME type. */
  datatype UploadFile = UploadFile(name: string, size: nat, mime: string)

  /** The form fields `file` and `chatId`; `None` stands for an absent field. */
  datatype UploadForm = UploadForm(file: Option<UploadFile>, chatId: Option<string>)

  /** What the applicable extractor gives: the file's text, or a throw. */
  datatype Extraction = Extracted(text: string) | ExtractionThrew

  /** One piece the splitter cuts, with its metadata as the splitter gives it. */
  datatype Piece = Piece(pageContent: string, metadata: string)

  datatype Vector = Vector(values: seq<real>)

  /** What `embedDocuments` gives: one vector per text, or a throw. */
  datatype Embedding = Vectors(vectors: seq<Vector>) | EmbeddingThrew

  /** A row of the `documents` table; `None` stands for an embedding that is
      `undefined` because fewer vectors than pieces came back. */
  datatype DocumentRow = DocumentRow(content: string, metadata: string, embedding: Option<Vector>, chatId: string, fileName: string)

  /** The calls the route makes, in order. */
  datatype UploadEffect =
    | StoreFile(path: string)
    | TrackFile(chatId: string, fileName: string, path: string, size: nat, mime: string)
    | EmbedTexts(texts: seq<string>)
    | InsertRows(rows: seq<DocumentRow>)

  datatype UploadResponse = PlainText(status: nat, text: string) | Success(fileName: string)

  /** The file's extension: the last of the name's dot-separated pieces. */
  function FileExt(name: string): string
  {
    var parts := Split(name, '.');
    SplitJoin(name, '.');
    parts[|parts| - 1]
  }

  /** The extension is the end of the name after its last dot, and the whole
      name when it has none. */
  lemma FileExtFacts(name: string)
    ensures var ext := FileExt(name);
      && '.' !in ext && |ext| <= |name| && name[|name| - |ext|..] == ext
      && ('.' in name ==> |ext| < |name| && name[|name| - |ext| - 1] == '.')
      && ('.' !in name ==> ext == name)
  {
    SplitLast(name, '.');
  }

  /** The storage path: user id, chat id and the upload time in decimal,
      separated by slashes, then a dot and the extension. */
  function FilePath(userId: string, chatId: string, now: nat, name: string): string
  {
    userId + "/" + chatId + "/" + Decimal(now) + "." + FileExt(name)
  }

  /** The end of `s` after its last dot is `ext` whenever `s` is something,
      a dot, then a dot-free `ext`. */
  lemma ExtAfterDot(head: string, ext: string)
    requires '.' !in ext
    ensures FileExt(head + "." + ext) == ext
  {
    var s := head + "." + ext;
    FileExtFacts(s);
    assert s[|s| - |ext| - 1] == '.';
    assert s[|s| - |ext|..] == ext;
  }

  /** The stored file keeps the uploaded file's extension, whatever dots the
      user or chat id hold. */
  lemma FilePathExtension(userId: string, chatId: string, now: nat, name: string)
    ensures FileExt(FilePath(userId, chatId, now, name)) == FileExt(name)
  {
    FileExtFacts(name);
    ExtAfterDot(userId + "/" + chatId + "/" + Decimal(now), FileExt(name));
  }

  /** The pieces' texts, in order, as sent to the embedding endpoint. */
  function PageContents(pieces: seq<Piece>): (texts: seq<string>)
    ensures |texts| == |pieces|
    ensures forall i :: 0 <= i < |pieces| ==> texts[i] == pieces[i].pageContent
  {
    if pieces == [] then [] else PageContents(pieces[..|pieces| - 1]) + [pieces[|pieces| - 1].pageContent]
  }

  /** The `i`-th vector, or `undefined` past the end. */
  function VectorAt(vectors: seq<Vector>, i: nat): Option<Vector>
  {
    if i < |vectors| then Some(vectors[i]) else None
  }

  /** The `documents` rows: one per piece, row `i` pairing
      piece `i`'s content and metadata with the `i`-th vector, the chat and
      the file's name. */
  function BuildRows(pieces: seq<Piece>, vectors: seq<Vector>, chatId: string, fileName: string): (rows: seq<DocumentRow>)
    ensures |rows| == |pieces|
    ensures forall i :: 0 <= i < |pieces| ==>
              rows[i] == DocumentRow(pieces[i].pageContent, pieces[i].metadata, VectorAt(vectors, i), chatId, fileName)
  {
    if pieces == [] then []
    else
      var n := |pieces| - 1;
      BuildRows(pieces[..n], vectors, chatId, fileName)
      + [DocumentRow(pieces[n].pageContent, pieces[n].metadata, VectorAt(vectors, n), chatId, fileName)]
  }

  /** The caller is signed in and the form carries a file and a non-empty
      chat id; the file is at most 5 MiB (exactly 5 MiB passes). */
  predicate Admitted(user: Option<string>, form: UploadForm) {
    user.Some? && form.file.Some? && form.chatId.Some? && form.chatId.value != ""
    && form.file.value.size <= MaxUploadBytes
  }

  predicate AcceptedType(mime: string) {
    mime == PdfType || mime == PlainTextType
  }

  /** The text to cut: the file's extracted text, when it is of an accepted
      type, extraction did not throw and the text is not blank. */
  predicate Readable(file: UploadFile, extraction: Extraction) {
    AcceptedType(file.mime) && extraction.Extracted? && !IsBlank(extraction.text)
  }

  /** The request handler. `user` is the authenticated user id, `now` the
      clock, `stored` whether the storage upload succeeds, `extraction` what
      the extractor for the file's type gives, `split` the splitter, `embed`
      the embedding endpoint and `inserted` whether the `documents` insert
      succeeds. The `chat_files` insert is recorded among the effects, but
      whether it succeeds is no input: the handler only logs a failure. */
  method Post(user: Option<string>, form: UploadForm, now: nat, stored: bool,
              extraction: Extraction, split: string -> seq<Piece>,
              embed: seq<string> -> Embedding, inserted: bool)
    returns (response: UploadResponse, effects: seq<UploadEffect>)
    ensures user.None? ==> response == PlainText(401, UnauthorizedText) && effects == []
    ensures user.Some? && (form.file.None? || form.chatId.None? || form.chatId.value == "")
            ==> response == PlainText(400, MissingFieldText) && effects == []
    ensures user.Some? && form.file.Some? && form.chatId.Some? && form.chatId.value != "" && form.file.value.size > MaxUploadBytes
            ==> response == PlainText(400, TooLargeText) && effects == []
    ensures Admitted(user, form) ==>
              var file := form.file.value;
              var path := FilePath(user.value, form.chatId.value, now, file.name);
              && |effects| >= 1 && effects[0] == StoreFile(path)
              && (!stored ==> response == PlainText(500, UploadFailedText) && effects == [StoreFile(path)])
              && (stored ==> |effects| >= 2 && effects[1] == TrackFile(form.chatId.value, file.name, path, file.size, file.mime))
              && (stored && !AcceptedType(file.mime) ==> response == PlainText(400, UnsupportedText) && |effects| == 2)
              && (stored && AcceptedType(file.mime) && extraction.ExtractionThrew? ==> response == PlainText(500, InternalErrorText) && |effects| == 2)
              && (stored && AcceptedType(file.mime) && extraction.Extracted? && IsBlank(extraction.text)
                  ==> response == PlainText(400, EmptyFileText) && |effects| == 2)
    ensures Admitted(user, form) && stored && Readable(form.file.value, extraction) ==>
              var file, chatId := form.file.value, form.chatId.value;
              var pieces := split(extraction.text);
              var texts := PageContents(pieces);
              && |effects| >= 3 && effects[2] == EmbedTexts(texts)
              && (embed(texts).EmbeddingThrew? ==> response == PlainText(500, InternalErrorText) && |effects| == 3)
              && (embed(texts).Vectors? ==>
                    && effects == effects[..3] + [InsertRows(BuildRows(pieces, embed(texts).vectors, chatId, file.name))]
                    && (!inserted ==> response == PlainText(500, StoreFailedText)))
    ensures response.PlainText? ==> response.status in {400, 401, 500}
    ensures response.Success? <==>
              && Admitted(user, form) && stored && Readable(form.file.value, extraction)
              && embed(PageContents(split(extraction.text))).Vectors? && inserted
    ensures response.Success? ==>
              var file := form.file.value;
              var pieces := split(extraction.text);
              var vectors := embed(PageContents(pieces)).vectors;
              && response.fileName == file.name
              && effects == [StoreFile(FilePath(user.value, form.chatId.value, now, file.name)),
                             TrackFile(form.chatId.value, file.name, FilePath(user.value, form.chatId.value, now, file.name), file.size, file.mime),
                             EmbedTexts(PageContents(pieces)),
                             InsertRows(BuildRows(pieces, vectors, form.chatId.value, file.name))]
  {
    if user.None? {
      return PlainText(401, UnauthorizedText), [];
    }
    if form.file.None? || form.chatId.None? || form.chatId.value == "" {
      return PlainText(400, MissingFieldText), [];
    }
    if form.file.value.size > MaxUploadBytes {
      return PlainText(400, TooLargeText), [];
    }
    response, effects := Store(user.value, form.chatId.value, form.file.value, now, stored, extraction, split, embed, inserted);
  }

  /** The handler once the caller and the form are admitted: store the file,
      track it, read its text by type, reject blank text, then ingest. */
  method Store(userId: string, chatId: string, file: UploadFile, now: nat, stored: bool,
               extraction: Extraction, split: string -> seq<Piece>,
               embed: seq<string> -> Embedding, inserted: bool)
    returns (response: UploadResponse, effects: seq<UploadEffect>)
    ensures var path := FilePath(userId, chatId, now, file.name);
      && |effects| >= 1 && effects[0] == StoreFile(path)
      && (!stored ==> response == PlainText(500, UploadFailedText) && effects == [StoreFile(path)])
      && (stored ==> |effects| >= 2 && effects[1] == TrackFile(chatId, file.name, path, file.size, file.mime))
      && (stored && !AcceptedType(file.mime) ==> response == PlainText(400, UnsupportedText) && |effects| == 2)
      && (stored && AcceptedType(file.mime) && extraction.ExtractionThrew? ==> response == PlainText(500, InternalErrorText) && |effects| == 2)
      && (stored && AcceptedType(file.mime) && extraction.Extracted? && IsBlank(extraction.text)
          ==> response == PlainText(400, EmptyFileText) && |effects| == 2)
    ensures stored && Readable(file, extraction) ==>
              var pieces := split(extraction.text);
              var texts := PageContents(pieces);
              && |effects| >= 3 && effects[2] == EmbedTexts(texts)
              && (embed(texts).EmbeddingThrew? ==> response == PlainText(500, InternalErrorText) && |effects| == 3)
              && (embed(texts).Vectors? ==>
                    && effects == effects[..3] + [InsertRows(BuildRows(pieces, embed(texts).vectors, chatId, file.name))]
                    && response == if inserted then Success(file.name) else PlainText(500, StoreFailedText))
    ensures response.PlainText? ==> response.status in {400, 500}
    ensures response.Success? ==> stored && Readable(file, extraction) && embed(PageContents(split(extraction.text))).Vectors? && inserted
  {
    var path := FilePath(userId, chatId, now, file.name);
    effects := [StoreFile(path)];
    if !stored {
      return PlainText(500, UploadFailedText), effects;
    }
    // A failed tracking insert is only logged.
    effects := effects + [TrackFile(chatId, file.name, path, file.size, file.mime)];
    var tail;
    response, tail := Process(chatId, file, extraction, split, embed, inserted);
    effects := effects + tail;
  }

  /** The handler once the file is stored and tracked: read its text by
      type, reject blank text, then ingest. `tail` is the effects it adds. */
  method Process(chatId: string, file: UploadFile, extraction: Extraction, split: string -> seq<Piece>,
                 embed: seq<string> -> Embedding, inserted: bool)
    returns (response: UploadResponse, tail: seq<UploadEffect>)
    ensures !AcceptedType(file.mime) ==> response == PlainText(400, UnsupportedText) && tail == []
    ensures AcceptedType(file.mime) && extraction.ExtractionThrew? ==> response == PlainText(500, InternalErrorText) && tail == []
    ensures AcceptedType(file.mime) && extraction.Extracted? && IsBlank(extraction.text)
            ==> response == PlainText(400, EmptyFileText) && tail == []
    ensures Readable(file, extraction) ==>
              var pieces := split(extraction.text);
              var texts := PageContents(pieces);
              && (embed(texts).EmbeddingThrew? ==> response == PlainText(500, InternalErrorText) && tail == [EmbedTexts(texts)])
              && (embed(texts).Vectors? ==>
                    && tail == [EmbedTexts(texts), InsertRows(BuildRows(pieces, embed(texts).vectors, chatId, file.name))]
                    && response == if inserted then Success(file.name) else PlainText(500, StoreFailedText))
    ensures response.PlainText? ==> response.status in {400, 500}
    ensures response.Success? ==> Readable(file, extraction) && embed(PageContents(split(extraction.text))).Vectors? && inserted
  {
    var text := "";
    if file.mime == PdfType {
      if extraction.ExtractionThrew? {
        return PlainText(500, InternalErrorText), [];
      }
      text := extraction.text;
    } else if file.mime == PlainTextType {
      if extraction.ExtractionThrew? {
        return PlainText(500, InternalErrorText), [];
      }
      text := extraction.text;
    } else {
      return PlainText(400, UnsupportedText), [];
    }
    TrimEmptyIffBlank(text);
    if Trim(text) == "" {
      return PlainText(400, EmptyFileText), [];
    }
    response, tail := Ingest(text, chatId, file.name, split, embed, inserted);
  }

  /** The end of the handler once the text is known: cut it into pieces, embed
      their texts and insert one row per piece. An embedding throw is a 500
      from the outer `catch`; a failed insert is a 500 of its own. */
  method Ingest(text: string, chatId: string, fileName: string, split: string -> seq<Piece>,
                embed: seq<string> -> Embedding, inserted: bool)
    returns (response: UploadResponse, effects: seq<UploadEffect>)
    ensures var pieces := split(text);
      var texts := PageContents(pieces);
      && (embed(texts).EmbeddingThrew? ==> response == PlainText(500, InternalErrorText) && effects == [EmbedTexts(texts)])
      && (embed(texts).Vectors? ==>
            && effects == [EmbedTexts(texts), InsertRows(BuildRows(pieces, embed(texts).vectors, chatId, fileName))]
            && response == if inserted then Success(fileName) else PlainText(500, StoreFailedText))
  {
    var pieces := split(text);
    var texts := PageContents(pieces);
    effects := [EmbedTexts(texts)];
    var embedding := embed(texts);
    if embedding.EmbeddingThrew? {
      return PlainText(500, InternalErrorText), effects;
    }
    var rows := BuildRows(pieces, embedding.vectors, chatId, fileName);
    effects := effects + [InsertRows(rows)];
    if !inserted {
      return PlainText(500, StoreFailedText), effects;
    }
    response := Success(fileName);
  }

  /** What a successful upload saves: row `i` holds the `i`-th text sent to
      the embedding endpoint together with the `i`-th vector that came back,
      so every stored embedding belongs to its own row's content. */
  lemma RowsMatchEmbeddings(pieces: seq<Piece>, vectors: seq<Vector>, chatId: string, fileName: string)
    requires |vectors| == |pieces|
    ensures var rows := BuildRows(pieces, vectors, chatId, fileName);
      var texts := PageContents(pieces);
      && |rows| == |texts|
      && forall i :: 0 <= i < |rows| ==>
           rows[i].content == texts[i] && rows[i].embedding == Some(vectors[i])
           && rows[i].chatId == chatId && rows[i].fileName == fileName
  {
  }
}
