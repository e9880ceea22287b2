/** The streamed check of an upload: what a sequence of reads amounts to. */
module UploadStreams {
  import opened Wrappers

  newtype byte = x: int | 0 <= x < 256

  type Bytes = seq<byte>

  const PDF_PREFIX: Bytes := [0x25, 0x50, 0x44, 0x46, 0x2D]

  /** One read of the stream; an empty one is the end of the file. */
  datatype Read = Data(bytes: Bytes) | Broken

  datatype StreamError = NotAPdf | TooLarge | EmptyFile | ReadFailed

  predicate AtEnd(pieces: seq<Read>) {
    pieces == [] || pieces[0] == Data([])
  }

  /** What the remaining reads yield, with `total` bytes already taken. */
  function Scan(pieces: seq<Read>, limit: nat, first: bool, total: nat): Result<Bytes, StreamError>
    decreases |pieces|
  {
    if AtEnd(pieces) then if first then Err(EmptyFile) else Ok([])
    else if pieces[0].Broken? then Err(ReadFailed)
    else
      var chunk := pieces[0].bytes;
      if first && !(PDF_PREFIX <= chunk) then Err(NotAPdf)
      else if total + |chunk| > limit then Err(TooLarge)
      else Prepend(chunk, Scan(pieces[1..], limit, false, total + |chunk|))
  }

  function Prepend(chunk: Bytes, rest: Result<Bytes, StreamError>): Result<Bytes, StreamError> {
    match rest
    case Err(e) => Err(e)
    case Ok(bytes) => Ok(chunk + bytes)
  }

  /** Every read up to the end of the file succeeds. */
  predicate Readable(pieces: seq<Read>)
    decreases |pieces|
  {
    AtEnd(pieces) || (pieces[0].Data? && Readable(pieces[1..]))
  }

  /** The bytes of a stream up to its end or its first failing read. */
  function Content(pieces: seq<Read>): Bytes
    decreases |pieces|
  {
    if AtEnd(pieces) || pieces[0].Broken? then [] else pieces[0].bytes + Content(pieces[1..])
  }

  function FirstRead(pieces: seq<Read>): Bytes {
    if AtEnd(pieces) || pieces[0].Broken? then [] else pieces[0].bytes
  }

  lemma FirstReadIsPrefix(pieces: seq<Read>)
    ensures FirstRead(pieces) <= Content(pieces)
  {
  }

  /** The verdict on every stream. A read that fails is reported unless a complaint came before it. */
  lemma VerdictExactly(pieces: seq<Read>, limit: nat)
    ensures Scan(pieces, limit, true, 0) == if FirstRead(pieces) == [] && Readable(pieces) then Err(EmptyFile)
                                            else if FirstRead(pieces) == [] then Err(ReadFailed)
                                            else if !(PDF_PREFIX <= FirstRead(pieces)) then Err(NotAPdf)
                                            else if |Content(pieces)| > limit then Err(TooLarge)
                                            else if !Readable(pieces) then Err(ReadFailed)
                                            else Ok(Content(pieces))
  {
    if !AtEnd(pieces) && pieces[0].Data? && |pieces[0].bytes| <= limit {
      VerdictOnRest(pieces[1..], limit, |pieces[0].bytes|);
    }
  }

  lemma {:induction false} VerdictOnRest(pieces: seq<Read>, limit: nat, total: nat)
    requires total <= limit
    ensures Scan(pieces, limit, false, total) == if total + |Content(pieces)| > limit then Err(TooLarge)
                                                 else if !Readable(pieces) then Err(ReadFailed)
                                                 else Ok(Content(pieces))
    decreases |pieces|
  {
    if !AtEnd(pieces) && pieces[0].Data? && total + |pieces[0].bytes| <= limit {
      VerdictOnRest(pieces[1..], limit, total + |pieces[0].bytes|);
    }
  }

  /** A stream passes exactly when it can be read to its end, its first read starts with the PDF
      prefix, and it is within the limit; what is yielded is the whole stream. */
  lemma AcceptedExactly(pieces: seq<Read>, limit: nat)
    ensures Scan(pieces, limit, true, 0).Ok? <==>
            Readable(pieces) && PDF_PREFIX <= FirstRead(pieces) && |Content(pieces)| <= limit
    ensures Scan(pieces, limit, true, 0).Ok? ==> Scan(pieces, limit, true, 0).value == Content(pieces)
  {
    hide Scan;
    VerdictExactly(pieces, limit);
  }

  /** How the stream is cut into reads makes no difference, as long as the first read is not shorter
      than the prefix that is looked for: same verdict with the same reason, same bytes. */
  lemma CutsDoNotMatter(pieces: seq<Read>, others: seq<Read>, limit: nat)
    requires Readable(pieces) && Readable(others) && Content(pieces) == Content(others)
    requires |FirstRead(pieces)| >= |PDF_PREFIX| && |FirstRead(others)| >= |PDF_PREFIX|
    ensures Scan(pieces, limit, true, 0) == Scan(others, limit, true, 0)
  {
    hide Scan;
    hide Content;
    hide FirstRead;
    hide Readable;
    VerdictExactly(pieces, limit);
    VerdictExactly(others, limit);
    FirstReadIsPrefix(pieces);
    FirstReadIsPrefix(others);
    var content := Content(pieces);
    assert FirstRead(pieces) == content[..|FirstRead(pieces)|] && FirstRead(others) == content[..|FirstRead(others)|];
    assert PDF_PREFIX <= FirstRead(pieces) <==> PDF_PREFIX <= content;
    assert PDF_PREFIX <= FirstRead(others) <==> PDF_PREFIX <= content;
  }

  /** With a shorter first read the verdict does depend on the cut: a PDF is refused. */
  lemma ShortFirstReadIsRefused(limit: nat)
    requires |PDF_PREFIX| <= limit
    ensures var pieces, whole := [Data([0x25]), Data([0x50, 0x44, 0x46, 0x2D])], [Data(PDF_PREFIX)];
            && Readable(pieces) && Readable(whole) && Content(pieces) == Content(whole) == PDF_PREFIX
            && Scan(whole, limit, true, 0) == Ok(PDF_PREFIX) && Scan(pieces, limit, true, 0) == Err(NotAPdf)
  {
    var pieces, whole := [Data([0x25]), Data([0x50, 0x44, 0x46, 0x2D])], [Data(PDF_PREFIX)];
    AcceptedExactly(whole, limit);
    assert pieces[1..] == [Data([0x50, 0x44, 0x46, 0x2D])] && pieces[1..][1..] == [];
    assert whole[1..] == [];
    assert Content([]) == [] && Content(whole) == PDF_PREFIX + [];
    assert Content(pieces[1..]) == [0x50, 0x44, 0x46, 0x2D] + [];
    assert |PDF_PREFIX| == 5 && |FirstRead(pieces)| == 1;
  }
}
