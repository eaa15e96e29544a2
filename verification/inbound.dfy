/**
 * Inbound notifications of BLE_Object: a payload longer than the one-byte
 * acknowledgement is JSON whose message id ("m02", "m03", ...) selects the
 * record type it is decoded as, and the file-transfer result code of an m09
 * reply is classified into success or one of the peripheral's error causes.
 *
 * JSON decoding itself is a parameter: a partial function from the chosen
 * message id and the payload to a decoded record.
 */
module Inbound {
  import opened Wrappers
  import opened Gatt

  /** The message ids, in the order the router tests for them. */
  datatype Tag = M02 | M03 | M04 | M08 | M09 | M14

  const RouteOrder: seq<Tag> := [M02, M03, M04, M08, M09, M14]

  /** The ASCII bytes of a message id. */
  function TagBytes(t: Tag): seq<Byte>
  {
    match t
    case M02 => [109, 48, 50]
    case M03 => [109, 48, 51]
    case M04 => [109, 48, 52]
    case M08 => [109, 48, 56]
    case M09 => [109, 48, 57]
    case M14 => [109, 49, 52]
  }

  /**
   * `String(decoding: data, as: UTF8.self).contains(id)` for an ASCII id,
   * taken as a search for the id's bytes in the payload. ASCII bytes never
   * occur inside a multi-byte UTF-8 sequence and the replacement of invalid
   * bytes never produces ASCII, so the two agree on every payload where no
   * combining mark follows an occurrence of the id and no prepend character
   * precedes it; there, Swift's grapheme-cluster matching can miss a tag
   * that the byte search finds (`6D 30 32 CC 81` holds "m02" followed by a
   * combining acute accent).
   */
  predicate Contains(data: seq<Byte>, pattern: seq<Byte>)
  {
    exists i :: 0 <= i <= |data| - |pattern| && OccursAt(data, pattern, i)
  }

  /** `pattern` is found in `data` starting at offset `i`. */
  predicate OccursAt(data: seq<Byte>, pattern: seq<Byte>, i: int)
    requires 0 <= i <= |data| - |pattern|
  {
    data[i..i + |pattern|] == pattern
  }

  /** The first of `tags` whose id the payload contains. */
  function FirstContained(data: seq<Byte>, tags: seq<Tag>): (r: Option<Tag>)
    ensures r.Some? ==> Contains(data, TagBytes(r.value)) &&
                        exists i :: 0 <= i < |tags| && tags[i] == r.value &&
                                    forall j :: 0 <= j < i ==> !Contains(data, TagBytes(tags[j]))
    ensures r.None? <==> forall j :: 0 <= j < |tags| ==> !Contains(data, TagBytes(tags[j]))
    decreases |tags|
  {
    if tags == [] then None
    else if Contains(data, TagBytes(tags[0])) then Some(tags[0])
    else
      var r := FirstContained(data, tags[1..]);
      assert r.Some? ==> exists i :: 1 <= i < |tags| && tags[i] == r.value &&
                                    forall j :: 0 <= j < i ==> !Contains(data, TagBytes(tags[j])) by {
        if r.Some? {
          var i :| 0 <= i < |tags[1..]| && tags[1..][i] == r.value &&
                   forall j :: 0 <= j < i ==> !Contains(data, TagBytes(tags[1..][j]));
          assert tags[i + 1] == r.value;
          forall j | 0 <= j < i + 1 ensures !Contains(data, TagBytes(tags[j])) {
            if j > 0 { assert tags[j] == tags[1..][j - 1]; }
          }
        }
      }
      r
  }

  /** The router: the message id a payload is decoded by, or None when it carries none. */
  function Route(data: seq<Byte>): (r: Option<Tag>)
    ensures r.Some? ==> Contains(data, TagBytes(r.value))
    ensures r.None? <==> forall t :: t in RouteOrder ==> !Contains(data, TagBytes(t))
  {
    FirstContained(data, RouteOrder)
  }

  /** A payload that contains m02 goes to m02, whatever other ids it holds. */
  lemma RouteFirstTagWins(data: seq<Byte>, t: Tag)
    requires Contains(data, TagBytes(t))
    ensures Route(data).Some?
    ensures t == M02 ==> Route(data) == Some(M02)
    ensures Route(data) == Some(M14) ==> t == M14
  {
    assert RouteOrder[0] == M02 && RouteOrder[5] == M14;
    assert t in RouteOrder;
  }

  /** Payloads shorter than an id, the one-byte acknowledgement among them, are never routed. */
  lemma ShortPayloadNotRouted(data: seq<Byte>)
    requires |data| < 3
    ensures Route(data) == None
  {
    forall t | t in RouteOrder ensures !Contains(data, TagBytes(t)) {
      assert |TagBytes(t)| == 3;
    }
  }

  /**
   * The records the router decodes (only the fields the manager reads are
   * kept): static device information (m02), seldom and frequent status
   * (m03, m04), a file availability answer (m08), the file transfer reply
   * (m09, decoded as a `FileTransferInfo` of which only the result code is
   * kept) and a device parameter (m14).
   */
  datatype Message =
    | StatusStatic
    | StatusSeldom(downloading: bool)
    | StatusFrequent(playing: bool, done: bool, triggered: bool)
    | AnyFileStatus(ok: bool, crc: int)
    | TransferReply(transferResult: int)
    | Parameter(name: string, value: int)

  function TagOf(m: Message): Tag
  {
    match m
    case StatusStatic => M02
    case StatusSeldom(_) => M03
    case StatusFrequent(_, _, _) => M04
    case AnyFileStatus(_, _) => M08
    case TransferReply(_) => M09
    case Parameter(_, _) => M14
  }

  /** A JSON decoder: asked for the record type of `t`, it yields a record of that type or fails. */
  ghost predicate IsDecoder(decode: (Tag, seq<Byte>) -> Option<Message>)
  {
    forall t, data :: decode(t, data).Some? ==> TagOf(decode(t, data).value) == t
  }

  /**
   * What one notification hands to the main queue: the record its first
   * message id decodes to, or nothing when it carries no id or the decoder
   * throws.
   */
  function Dispatch(data: seq<Byte>, decode: (Tag, seq<Byte>) -> Option<Message>): (r: seq<Message>)
    requires IsDecoder(decode)
    ensures |r| <= 1
    ensures r != [] ==> Route(data).Some? && TagOf(r[0]) == Route(data).value
    ensures Route(data).None? ==> r == []
    // a routed payload yields its record exactly when the decoder does not throw
    ensures Route(data).Some? ==> (r == [] <==> decode(Route(data).value, data).None?)
    ensures r != [] ==> r[0] == decode(Route(data).value, data).value
  {
    match Route(data)
    case None => []
    case Some(t) =>
      match decode(t, data)
      case None => []
      case Some(m) => [m]
  }

  /** The causes of a finished transfer that the peripheral reports in `transferResult`. */
  datatype TransferResult =
    | UploadOk                       // 0
    | TemporaryFileNotRemoved        // 1
    | StorageWriteFailed             // 2
    | WrongByteCount                 // 3: packages missing
    | DestinationFileNotRemoved      // 4
    | RenameFailed                   // 5
    | OtaBootPartitionCorrupted      // 6
    | OtaBeginFailed                 // 7
    | OtaWriteFailed                 // 8
    | OtaEndFailed                   // 9
    | OtaBootPartitionSettings       // 10
    | StorageFull                    // 11: less than twice the file size free
    | UnknownTransferError           // any other code

  /** The code of each cause; the unknown error has none of its own. */
  function CodeOf(r: TransferResult): int
  {
    match r
    case UploadOk => 0
    case TemporaryFileNotRemoved => 1
    case StorageWriteFailed => 2
    case WrongByteCount => 3
    case DestinationFileNotRemoved => 4
    case RenameFailed => 5
    case OtaBootPartitionCorrupted => 6
    case OtaBeginFailed => 7
    case OtaWriteFailed => 8
    case OtaEndFailed => 9
    case OtaBootPartitionSettings => 10
    case StorageFull => 11
    case UnknownTransferError => -1
  }

  /** The switch on `transferResult` of an m09 reply. */
  function ClassifyTransferResult(code: int): (r: TransferResult)
    ensures r.UploadOk? <==> code == 0
    ensures r.UnknownTransferError? <==> !(0 <= code <= 11)
  {
    match code
    case 0 => UploadOk
    case 1 => TemporaryFileNotRemoved
    case 2 => StorageWriteFailed
    case 3 => WrongByteCount
    case 4 => DestinationFileNotRemoved
    case 5 => RenameFailed
    case 6 => OtaBootPartitionCorrupted
    case 7 => OtaBeginFailed
    case 8 => OtaWriteFailed
    case 9 => OtaEndFailed
    case 10 => OtaBootPartitionSettings
    case 11 => StorageFull
    case _ => UnknownTransferError
  }

  /** Each of the codes 0 to 11 has a cause of its own: classifying and taking the code back is the identity. */
  lemma ClassifyRoundTrip(code: int)
    requires 0 <= code <= 11
    ensures CodeOf(ClassifyTransferResult(code)) == code
  {
  }

  /** And every cause but the unknown error comes from exactly its own code. */
  lemma CodeRoundTrip(r: TransferResult)
    requires !r.UnknownTransferError?
    ensures ClassifyTransferResult(CodeOf(r)) == r
  {
  }
}
