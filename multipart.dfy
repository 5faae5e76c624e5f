/** Alamofire's `MultipartFormData` as a builder that records, in order, the
    `append` calls made on it, and the library's `append` extensions that
    turn `MultipartRequestPayloadType` parts into those calls. Boundaries
    and part encoding (RFC 7578) stay inside Alamofire. */
module Multipart {
  import opened Wrappers
  import opened Http
  import opened Payload

  /** One `append` call on `MultipartFormData`, with its arguments. */
  datatype Entry =
    | AppendData(data: Bytes, name: string, dataFileName: Option<string>, dataMimeType: Option<string>)
    | AppendFile(fileUrl: Url, name: string)
    | AppendFileNamed(fileUrl: Url, name: string, fileName: string, mimeType: string)
    | AppendHeaderedStream(stream: nat, length: nat, headers: Headers)
    | AppendStream(stream: nat, length: nat, name: string, fileName: string, mimeType: string)

  /** The part each entry was made from. */
  function PartOf(e: Entry): MultipartRequestPayloadType {
    match e
    case AppendData(d, n, f, m) => DataPart(d, n, f, m)
    case AppendFile(u, n) => File(u, n)
    case AppendFileNamed(u, n, f, m) => FileWithName(u, n, f, m)
    case AppendHeaderedStream(s, l, h) => StreamWithHeaders(s, l, h)
    case AppendStream(s, l, n, f, m) => Stream(s, l, n, f, m)
  }

  /** `append(_ bodyPart:)`'s dispatch: each part kind becomes exactly one
      `append` call carrying all of that part's fields, so the part can be
      read back from the call; optional file name and MIME type of a data
      part pass through as given. */
  function EntryOf(part: MultipartRequestPayloadType): (e: Entry)
    ensures PartOf(e) == part
    ensures part.DataPart? ==> e.AppendData? && e.dataFileName == part.dataFileName
                               && e.dataMimeType == part.dataMimeType
  {
    match part
    case DataPart(d, n, f, m) => AppendData(d, n, f, m)
    case File(u, n) => AppendFile(u, n)
    case FileWithName(u, n, f, m) => AppendFileNamed(u, n, f, m)
    case StreamWithHeaders(s, l, h) => AppendHeaderedStream(s, l, h)
    case Stream(s, l, n, f, m) => AppendStream(s, l, n, f, m)
  }

  /** The calls made for a list of parts, in list order. */
  function Entries(parts: seq<MultipartRequestPayloadType>): seq<Entry> {
    if parts == [] then [] else [EntryOf(parts[0])] + Entries(parts[1..])
  }

  /** One call per part, the i-th call made from the i-th part. */
  lemma {:induction false} EntriesPointwise(parts: seq<MultipartRequestPayloadType>)
    ensures |Entries(parts)| == |parts|
    ensures forall i :: 0 <= i < |parts| ==> Entries(parts)[i] == EntryOf(parts[i])
  {
    if parts != [] {
      EntriesPointwise(parts[1..]);
      forall i | 0 <= i < |parts| ensures Entries(parts)[i] == EntryOf(parts[i]) {
        if i > 0 {
          assert parts[1..][i - 1] == parts[i];
        }
      }
    }
  }

  /** Appending `xs + ys` makes the calls for `xs`, then those for `ys`. */
  lemma {:induction false} EntriesAppend(xs: seq<MultipartRequestPayloadType>, ys: seq<MultipartRequestPayloadType>)
    ensures Entries(xs + ys) == Entries(xs) + Entries(ys)
  {
    if xs == [] {
      assert xs + ys == ys;
    } else {
      assert (xs + ys)[1..] == xs[1..] + ys;
      EntriesAppend(xs[1..], ys);
    }
  }

  /** `MultipartFormData`, reduced to the calls appended to it so far. */
  class MultipartFormData {
    var entries: seq<Entry>

    constructor ()
      ensures entries == []
    {
      entries := [];
    }

    /** `append(_ bodyPart:)`. */
    method Append(part: MultipartRequestPayloadType)
      modifies this
      ensures entries == old(entries) + [EntryOf(part)]
    {
      match part {
        case DataPart(d, n, f, m) => entries := entries + [AppendData(d, n, f, m)];
        case File(u, n) => entries := entries + [AppendFile(u, n)];
        case FileWithName(u, n, f, m) => entries := entries + [AppendFileNamed(u, n, f, m)];
        case StreamWithHeaders(s, l, h) => entries := entries + [AppendHeaderedStream(s, l, h)];
        case Stream(s, l, n, f, m) => entries := entries + [AppendStream(s, l, n, f, m)];
      }
    }

    /** `append(_ bodyParts:)`: one `append` per part, in list order; an
        empty list leaves the builder as it was. */
    method AppendAll(parts: seq<MultipartRequestPayloadType>)
      modifies this
      ensures entries == old(entries) + Entries(parts)
    {
      var i := 0;
      assert parts[..0] == [];
      while i < |parts|
        invariant 0 <= i <= |parts|
        invariant entries == old(entries) + Entries(parts[..i])
      {
        Append(parts[i]);
        assert parts[..i + 1] == parts[..i] + [parts[i]];
        EntriesAppend(parts[..i], [parts[i]]);
        assert Entries([parts[i]]) == [EntryOf(parts[i])];
        i := i + 1;
      }
      assert parts[..i] == parts;
    }
  }
}
