/** Uploading a document: the validated stream goes to a new file, then a row is committed, then
    the ingestion job is published; a failure before the commit is compensated. */
module UploadServices {
  import opened Wrappers
  import opened UploadStreams
  import Text

  type Path = nat
  type DocumentId = nat

  /** What pathlib makes of a file name: its last component and its suffix in lower case. */
  datatype FileName = FileName(text: string, name: string, suffix: string)

  /** The row of an upload, with the two columns that get their defaults. */
  datatype Document = Document(
    filename: string,
    storagePath: Path,
    documentType: string,
    model: string,
    dimension: int,
    status: string,
    failureReason: Option<string>)

  datatype Error =
    | TypeEmpty | TypeTooLong | NotAPdfName | NotAPdfContentType
    | Rejected(reason: StreamError)
    | StorageFailed
    | DatabaseFailed
    | RefreshFailed
    | PublishFailed

  /** After trimming, 1 to 100 characters. */
  predicate GoodType(documentType: string) {
    1 <= |Text.Strip(documentType)| <= 100
  }

  predicate GoodName(filename: FileName) {
    filename.text != "" && filename.suffix == ".pdf"
  }

  predicate GoodContent(contentType: Option<string>) {
    contentType == Some("application/pdf") || contentType == Some("application/octet-stream")
  }

  predicate IsComplaint(e: Error) {
    e.TypeEmpty? || e.TypeTooLong? || e.NotAPdfName? || e.NotAPdfContentType?
  }

  /** The first complaint about the metadata. */
  function MetadataError(filename: FileName, contentType: Option<string>, documentType: string): Option<Error> {
    if documentType == "" then Some(TypeEmpty)
    else if |documentType| > 100 then Some(TypeTooLong)
    else if filename.text == "" || filename.suffix != ".pdf" then Some(NotAPdfName)
    else if contentType.None? || contentType.value !in {"application/pdf", "application/octet-stream"}
    then Some(NotAPdfContentType)
    else None
  }

  class Stream {
    var pieces: seq<Read>

    constructor (pieces: seq<Read>)
      ensures this.pieces == pieces
    {
      this.pieces := pieces;
    }

    method Next() returns (r: Read)
      modifies this
      ensures old(pieces) == [] ==> r == Data([]) && pieces == []
      ensures old(pieces) != [] ==> r == old(pieces)[0] && pieces == old(pieces)[1..]
    {
      if pieces == [] { return Data([]); }
      r := pieces[0];
      pieces := pieces[1..];
    }
  }

  /** The generator of validated chunks, resumed once per chunk. */
  class ValidatedChunks {
    const stream: Stream
    const maxFileSize: nat
    var totalSize: nat
    var firstChunk: bool

    constructor (stream: Stream, maxFileSize: nat)
      ensures this.stream == stream && this.maxFileSize == maxFileSize
      ensures totalSize == 0 && firstChunk
    {
      this.stream := stream;
      this.maxFileSize := maxFileSize;
      totalSize := 0;
      firstChunk := true;
    }

    /** What is still to come. */
    ghost function Rest(): Result<Bytes, StreamError>
      reads this, stream
    {
      Scan(stream.pieces, maxFileSize, firstChunk, totalSize)
    }

    method Next() returns (r: Result<Option<Bytes>, StreamError>)
      modifies this, stream
      ensures r.Err? ==> old(Rest()) == Err(r.error)
      ensures r.Ok? && r.value.None? ==> old(Rest()) == Ok([])
      ensures r.Ok? && r.value.Some? ==>
                      old(Rest()) == Prepend(r.value.value, Rest())
                      && |stream.pieces| < |old(stream.pieces)|
    {
      var read := stream.Next();
      if read.Broken? { return Err(ReadFailed); }
      var chunk := read.bytes;
      if chunk == [] {
        if firstChunk { return Err(EmptyFile); }
        return Ok(None);
      }
      if firstChunk {
        if !(PDF_PREFIX <= chunk) { return Err(NotAPdf); }
        firstChunk := false;
      }
      totalSize := totalSize + |chunk|;
      if totalSize > maxFileSize { return Err(TooLarge); }
      r := Ok(Some(chunk));
    }
  }

  class LocalDocumentStorage {
    var files: map<Path, Bytes>

    constructor ()
      ensures files == map[]
    {
      files := map[];
    }

    /** Write the chunks under a new name. A failure closes and removes the file, which may fail in
        turn; a failure to close it after the last chunk does not remove it. `cleaned` says that no
        file is left behind by a failure. */
    method Save(destination: Path, chunks: ValidatedChunks) returns (r: Result<Path, Error>, cleaned: bool)
      requires destination !in files && chunks.firstChunk && chunks.totalSize == 0
      modifies this, chunks, chunks.stream
      ensures r.Ok? ==> && r.value == destination && old(chunks.Rest()).Ok?
                        && files == old(files)[destination := old(chunks.Rest()).value]
      ensures r.Err? && cleaned ==> files == old(files)
      ensures r.Err? ==> && files.Keys <= old(files).Keys + {destination}
                         && forall p :: p in old(files) ==> p in files && files[p] == old(files)[p]
      ensures r.Err? && r.error.Rejected? ==> old(chunks.Rest()) == Err(r.error.reason)
      ensures r.Err? ==> r.error.Rejected? || r.error == StorageFailed
      ensures old(chunks.Rest()).Err? ==> r.Err?
    {
      cleaned := true;
      var opens: bool := *;
      if !opens { return Err(StorageFailed), true; }
      files := files[destination := []];
      PrependNothing(chunks.Rest());
      while true
        invariant destination in files && files == old(files)[destination := files[destination]]
        invariant old(chunks.Rest()) == Prepend(files[destination], chunks.Rest())
        decreases |chunks.stream.pieces|
      {
        ghost var rest := chunks.Rest();
        var next := chunks.Next();
        if next.Err? {
          cleaned := Discard(destination);
          return Err(Rejected(next.error)), cleaned;
        }
        if next.value.None? {
          PrependNothing(Ok(files[destination]));
          break;
        }
        var chunk := next.value.value;
        var writes: bool := *;
        if !writes {
          cleaned := Discard(destination);
          return Err(StorageFailed), cleaned;
        }
        PrependTwice(files[destination], chunk, chunks.Rest());
        files := files[destination := files[destination] + chunk];
      }
      var closes: bool := *;
      if !closes { return Err(StorageFailed), false; }
      r := Ok(destination);
    }

    /** Close and unlink after a failure; either may fail in turn. */
    method Discard(destination: Path) returns (cleaned: bool)
      modifies this
      ensures files == if cleaned then old(files) - {destination} else old(files)
    {
      cleaned := *;
      if cleaned { Delete(destination); }
    }

    method Delete(path: Path)
      modifies this
      ensures files == old(files) - {path}
    {
      files := files - {path};
    }
  }

  lemma PrependNothing(rest: Result<Bytes, StreamError>)
    ensures Prepend([], rest) == rest
    ensures rest.Ok? ==> Prepend(rest.value, Ok([])) == rest
  {
    if rest.Ok? { assert [] + rest.value == rest.value && rest.value + [] == rest.value; }
  }

  lemma PrependTwice(a: Bytes, b: Bytes, rest: Result<Bytes, StreamError>)
    ensures Prepend(a, Prepend(b, rest)) == Prepend(a + b, rest)
  {
    if rest.Ok? { assert a + (b + rest.value) == (a + b) + rest.value; }
  }

  class Database {
    var rows: map<DocumentId, Document>

    constructor ()
      ensures rows == map[]
    {
      rows := map[];
    }
  }

  class IngestionPublisher {
    var published: seq<DocumentId>

    constructor ()
      ensures published == []
    {
      published := [];
    }
  }

  predicate RowsMatchFiles(rows: map<DocumentId, Document>, files: map<Path, Bytes>) {
    && (forall d :: d in rows ==> rows[d].storagePath in files)
    && (forall p :: p in files ==> exists d :: d in rows && rows[d].storagePath == p)
  }

  lemma OneMoreIsConsistent(rows: map<DocumentId, Document>, files: map<Path, Bytes>,
                            id: DocumentId, document: Document, content: Bytes)
    requires id !in rows
    ensures RowsMatchFiles(rows, files) ==> RowsMatchFiles(rows[id := document], files[document.storagePath := content])
  {
    var rows', files' := rows[id := document], files[document.storagePath := content];
    if RowsMatchFiles(rows, files) {
      forall p | p in files' ensures exists d :: d in rows' && rows'[d].storagePath == p {
        if p == document.storagePath {
          assert rows'[id].storagePath == p;
        } else {
          var d :| d in rows && rows[d].storagePath == p;
          assert rows'[d].storagePath == p;
        }
      }
    }
  }

  class DocumentService {
    const database: Database
    const storage: LocalDocumentStorage
    const publisher: IngestionPublisher?
    const embeddingModel: string
    const embeddingDimension: int
    const maxFileSize: nat

    constructor (database: Database, storage: LocalDocumentStorage, publisher: IngestionPublisher?,
                 embeddingModel: string, embeddingDimension: int, maxFileSize: nat)
      ensures this.database == database && this.storage == storage && this.publisher == publisher
      ensures this.embeddingModel == embeddingModel && this.embeddingDimension == embeddingDimension
      ensures this.maxFileSize == maxFileSize
    {
      this.database := database;
      this.storage := storage;
      this.publisher := publisher;
      this.embeddingModel := embeddingModel;
      this.embeddingDimension := embeddingDimension;
      this.maxFileSize := maxFileSize;
    }

    /** Every row has its file, every file its row. */
    ghost predicate Consistent()
      reads database, storage
    {
      RowsMatchFiles(database.rows, storage.files)
    }

    /** Validate, store, record and announce a document. `lost` says that the commit took effect
        although it raised, `cleaned` that every cleanup worked. Whatever happens, the row and the
        file agree unless one of those two went wrong. */
    method Upload(filename: FileName, contentType: Option<string>, stream: Stream, documentType: string,
                  id: DocumentId, path: Path)
      returns (r: Result<DocumentId, Error>, lost: bool, cleaned: bool)
      requires id !in database.rows && path !in storage.files
      modifies database, storage, publisher, stream
      // Each complaint names the first condition that fails, in the order type, file name, content type.
      ensures r == Err(TypeEmpty) <==> |Text.Strip(documentType)| == 0
      ensures r == Err(TypeTooLong) <==> |Text.Strip(documentType)| > 100
      ensures r == Err(NotAPdfName) <==> GoodType(documentType) && !GoodName(filename)
      ensures r == Err(NotAPdfContentType) <==>
                GoodType(documentType) && GoodName(filename) && !GoodContent(contentType)
      ensures r.Err? && IsComplaint(r.error) ==> cleaned && !lost
      // The stream decides what is refused; what passes is stored as it came.
      ensures r.Err? && r.error.Rejected? ==> Scan(old(stream.pieces), maxFileSize, true, 0) == Err(r.error.reason)
      ensures AfterCommit(r) ==> id in database.rows
      ensures AfterCommit(r) ==>
                && Scan(old(stream.pieces), maxFileSize, true, 0) == Ok(Content(old(stream.pieces)))
                && GoodType(documentType) && GoodName(filename) && GoodContent(contentType)
                && database.rows == old(database.rows)[id := database.rows[id]]
                && database.rows[id].filename == filename.name && database.rows[id].storagePath == path
                && database.rows[id].documentType == Text.Strip(documentType)
                && database.rows[id].model == embeddingModel && database.rows[id].dimension == embeddingDimension
                && database.rows[id].status == "pending" && database.rows[id].failureReason == None
                && storage.files == old(storage.files)[path := Content(old(stream.pieces))]
      // The job is in the queue after success, perhaps after a failed publish, and never otherwise.
      ensures r.Ok? && publisher != null ==> Published() == old(Published()) + [id]
      ensures r == Err(PublishFailed) ==> Published() == old(Published()) || Published() == old(Published()) + [id]
      ensures r != Err(PublishFailed) && (r.Err? || publisher == null) ==> Published() == old(Published())
      // Before the commit: no row, and no file either if the cleanup worked.
      ensures !AfterCommit(r) && !lost ==>
                database.rows == old(database.rows) && (cleaned ==> storage.files == old(storage.files))
      // The row is left without its file exactly when the commit's reply was lost and the cleanup worked.
      ensures lost ==> r == Err(DatabaseFailed) && id in database.rows
      ensures id in database.rows && path !in storage.files <==> lost && cleaned
      ensures old(Consistent()) && cleaned && !lost ==> Consistent()
    {
      hide Scan;
      hide Content;
      hide Text.Strip;
      lost, cleaned := false, true;
      var normalizedType := Text.Strip(documentType);
      var complaint := MetadataError(filename, contentType, normalizedType);
      if complaint.Some? { return Err(complaint.value), lost, cleaned; }

      var chunks := new ValidatedChunks(stream, maxFileSize);
      var saved;
      saved, cleaned := storage.Save(path, chunks);
      if saved.Err? { return Err(saved.error), lost, cleaned; }
      AcceptedExactly(old(stream.pieces), maxFileSize);

      var outcome: CommitOutcome := *;
      if outcome.Applied() {
        database.rows := database.rows[id := NewDocument(filename, normalizedType, path)];
      }
      if !outcome.Committed? {
        lost := outcome.ReplyLost?;
        cleaned := storage.Discard(path);
        return Err(DatabaseFailed), lost, cleaned;
      }
      OneMoreIsConsistent(old(database.rows), old(storage.files), id, database.rows[id], Content(old(stream.pieces)));

      var refreshes: bool := *;
      if !refreshes { return Err(RefreshFailed), lost, cleaned; }
      if publisher != null {
        // The broker may have taken the message although `publish` raises.
        var published: CommitOutcome := *;
        if published.Applied() { publisher.published := publisher.published + [id]; }
        if !published.Committed? { return Err(PublishFailed), lost, cleaned; }
      }
      r := Ok(id);
    }

    /** The upload got past its commit. */
    predicate AfterCommit(r: Result<DocumentId, Error>) {
      r.Ok? || r.error == RefreshFailed || r.error == PublishFailed
    }

    function NewDocument(filename: FileName, documentType: string, path: Path): Document {
      Document(filename.name, path, documentType, embeddingModel, embeddingDimension, "pending", None)
    }

    ghost function Published(): seq<DocumentId>
      reads publisher
    {
      if publisher == null then [] else publisher.published
    }
  }
}
