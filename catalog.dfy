/** core/message/catalog.go: the catalog of a message, which lists its blocks
    and attachments, each with its own freshly generated key and IV. Content
    is never read here: a descriptor holds the chain of readers (compression,
    then the cipher) that its content will be pulled through. */
module Catalog {
  import opened Common

  /** A size at or above which content is compressed before it is encrypted. */
  const CompressThreshold: nat := 1024
  const Zlib: string := "zlib"

  datatype Checksum = Checksum(hash: string, value: string)

  /** A reader and what it is wrapped in, innermost first:
      `Source` is the caller's reader, with the bytes it will still yield. */
  datatype Stream =
    | Source(data: seq<byte>)
    | ZlibCompressed(inner: Stream)
    | CfbDecrypter(key: seq<byte>, iv: seq<byte>, inner: Stream)

  datatype BlockType = BlockType(
    id: string,
    blockType: string,
    size: nat,
    encoding: string,
    compression: string,
    checksum: seq<Checksum>,
    reader: Stream,
    key: seq<byte>,
    iv: seq<byte>)

  datatype AttachmentType = AttachmentType(
    id: string,
    mimeType: string,
    fileName: string,
    size: nat,
    compression: string,
    checksum: seq<Checksum>,
    reader: Stream,
    key: seq<byte>,
    iv: seq<byte>)

  /** The caller's description of a block: its type, its declared size and
      the bytes its reader yields. */
  datatype Block = Block(blockType: string, size: nat, reader: seq<byte>)

  /** An attachment: a local path and the bytes its reader yields. */
  datatype Attachment = Attachment(path: string, reader: seq<byte>)

  /** The sender fields `NewCatalog` copies from a `core.AccountInfo`. */
  datatype ProofOfWork = ProofOfWork(bits: int, proof: nat)
  datatype AccountInfo = AccountInfo(
    address: string, name: string, organisation: string, pow: ProofOfWork, pubKey: string)
  datatype Sender = Sender(
    address: string, name: string, organisation: string, proofOfWork: ProofOfWork, publicKey: string)
  datatype Recipient = Recipient(address: string, name: string)

  /** One `rand.Read` into a fresh buffer: the count it reports, its error,
      and the buffer's contents afterwards. */
  datatype RandomRead = RandomRead(n: int, err: Option<Error>, buffer: seq<byte>)

  /** What `mimetype.DetectReader` returns: the type, or an error, and how
      many bytes it took from the reader while looking. */
  datatype Detection = Detection(mime: Result<string>, consumed: nat)

  /** What `generateIvAndKey` returns; nil slices are empty sequences. */
  datatype IvAndKey = IvAndKey(iv: seq<byte>, key: seq<byte>, err: Option<Error>)

  predicate FullRead(r: RandomRead, size: nat) { r.n == size && r.err.None? }

  /** The IV read, or after a full IV read the key read, reports fewer bytes
      than asked for and no error. */
  predicate ShortWithoutError(ivRead: RandomRead, keyRead: RandomRead)
  {
    || (ivRead.n != IvSize && ivRead.err.None?)
    || (FullRead(ivRead, IvSize) && keyRead.n != KeySize && keyRead.err.None?)
  }

  /** generateIvAndKey(): a 16-byte IV, then a 32-byte key. A read that fails
      or reports a short count gives two nil slices and that read's error,
      which is nil after a short read without an error. */
  function GenerateIvAndKey(ivRead: RandomRead, keyRead: RandomRead): (r: IvAndKey)
    requires |ivRead.buffer| == IvSize && |keyRead.buffer| == KeySize
    ensures FullRead(ivRead, IvSize) && FullRead(keyRead, KeySize) ==>
      r == IvAndKey(ivRead.buffer, keyRead.buffer, None)
    ensures !FullRead(ivRead, IvSize) ==> r == IvAndKey([], [], ivRead.err)
    ensures FullRead(ivRead, IvSize) && !FullRead(keyRead, KeySize) ==> r == IvAndKey([], [], keyRead.err)
    ensures r.err.None? ==> (|r.iv| == IvSize <==> |r.key| == KeySize)
    ensures |r.iv| == IvSize || r.iv == []
  {
    if ivRead.n != 16 || ivRead.err.Some? then IvAndKey([], [], ivRead.err)
    else if keyRead.n != 32 || keyRead.err.Some? then IvAndKey([], [], keyRead.err)
    else IvAndKey(ivRead.buffer, keyRead.buffer, None)
  }

  /** getAesReader(iv, key, r): wraps `r` in a CFB stream. `aes.NewCipher`
      refuses a key of any other size; `cipher.NewCFBDecrypter` panics on an
      IV that is not one block, reported here as an error. */
  function AesReader(iv: seq<byte>, key: seq<byte>, r: Stream): (res: Result<Stream>)
    ensures res.Ok? <==> AesKeySize(key) && |iv| == IvSize
    ensures !AesKeySize(key) ==> res == Fail(KeySizeError(|key|))
    ensures res.Ok? ==> res.value == CfbDecrypter(key, iv, r)
  {
    if !AesKeySize(key) then Fail(KeySizeError(|key|))
    else if |iv| != 16 then Fail(Error("cipher.NewCFBDecrypter: IV length must equal block size"))
    else Ok(CfbDecrypter(key, iv, r))
  }

  /** The compression choice both AddBlock and AddAttachment make. */
  function CompressionFor(size: nat): (c: string)
    ensures c == Zlib <==> size >= CompressThreshold
    ensures c == "" <==> size < CompressThreshold
  {
    if size >= 1024 then Zlib else ""
  }

  /** The content before encryption: compressed when large enough. */
  function Payload(size: nat, data: seq<byte>): (r: Stream)
    ensures r.ZlibCompressed? <==> size >= CompressThreshold
    ensures r == Source(data) || r == ZlibCompressed(Source(data))
  {
    if size >= 1024 then ZlibCompressed(Source(data)) else Source(data)
  }

  /** The steps of AddBlock before the append: uuid, key generation and the
      cipher, in that order, each able to end it with an error. */
  function NewBlock(entry: Block, uuid: Result<string>, ivRead: RandomRead, keyRead: RandomRead)
    : (r: Result<BlockType>)
    requires |ivRead.buffer| == IvSize && |keyRead.buffer| == KeySize
    ensures uuid.Fail? ==> r == Fail(uuid.err)
    ensures r.Ok? <==> uuid.Ok? && FullRead(ivRead, IvSize) && FullRead(keyRead, KeySize)
    ensures uuid.Ok? && !FullRead(ivRead, IvSize) && ivRead.err.Some? ==> r == Fail(ivRead.err.value)
    ensures uuid.Ok? && FullRead(ivRead, IvSize) && keyRead.err.Some? ==> r == Fail(keyRead.err.value)
    ensures uuid.Ok? && ShortWithoutError(ivRead, keyRead) ==> r == Fail(KeySizeError(0))
    ensures r.Ok? ==>
      && r.value.id == uuid.value
      && r.value.blockType == entry.blockType
      && r.value.size == entry.size
      && r.value.encoding == ""
      && r.value.checksum == []
      && (r.value.compression == Zlib <==> entry.size >= CompressThreshold)
      && r.value.key == keyRead.buffer && |r.value.key| == KeySize
      && r.value.iv == ivRead.buffer && |r.value.iv| == IvSize
      && r.value.reader == CfbDecrypter(r.value.key, r.value.iv, Payload(entry.size, entry.reader))
  {
    match uuid
    case Fail(e) => Fail(e)
    case Ok(id) =>
      var compression := CompressionFor(entry.size);
      var ik := GenerateIvAndKey(ivRead, keyRead);
      if ik.err.Some? then Fail(ik.err.value)
      else
        match AesReader(ik.iv, ik.key, Payload(entry.size, entry.reader))
        case Fail(e) => Fail(e)
        case Ok(reader) =>
          Ok(BlockType(
            id := id,
            blockType := entry.blockType,
            size := entry.size,
            encoding := "",
            compression := compression,
            checksum := [],
            reader := reader,
            key := ik.key,
            iv := ik.iv))
  }

  /** The steps of AddAttachment before the append: stat, mime detection,
      uuid, key generation and the cipher. Detection reads from the same
      reader that is encrypted afterwards, so the stream starts after the
      bytes detection took. */
  function NewAttachment(entry: Attachment, stat: Result<nat>, detection: Detection, uuid: Result<string>,
                         ivRead: RandomRead, keyRead: RandomRead)
    : (r: Result<AttachmentType>)
    requires |ivRead.buffer| == IvSize && |keyRead.buffer| == KeySize
    ensures stat.Fail? ==> r == Fail(stat.err)
    ensures stat.Ok? && detection.mime.Fail? ==> r == Fail(detection.mime.err)
    ensures stat.Ok? && detection.mime.Ok? && uuid.Fail? ==> r == Fail(uuid.err)
    ensures stat.Ok? && detection.mime.Ok? && uuid.Ok? && !FullRead(ivRead, IvSize) && ivRead.err.Some? ==>
      r == Fail(ivRead.err.value)
    ensures stat.Ok? && detection.mime.Ok? && uuid.Ok? && FullRead(ivRead, IvSize) && keyRead.err.Some? ==>
      r == Fail(keyRead.err.value)
    ensures stat.Ok? && detection.mime.Ok? && uuid.Ok? && ShortWithoutError(ivRead, keyRead) ==>
      r == Fail(KeySizeError(0))
    ensures r.Ok? <==>
      stat.Ok? && detection.mime.Ok? && uuid.Ok? && FullRead(ivRead, IvSize) && FullRead(keyRead, KeySize)
    ensures r.Ok? ==>
      && r.value.id == uuid.value
      && r.value.mimeType == detection.mime.value
      && r.value.fileName == entry.path
      && r.value.size == stat.value
      && r.value.checksum == []
      && (r.value.compression == Zlib <==> stat.value >= CompressThreshold)
      && r.value.key == keyRead.buffer && |r.value.key| == KeySize
      && r.value.iv == ivRead.buffer && |r.value.iv| == IvSize
      && r.value.reader == CfbDecrypter(r.value.key, r.value.iv,
                                        Payload(stat.value, Remaining(entry.reader, detection.consumed)))
  {
    match stat
    case Fail(e) => Fail(e)
    case Ok(size) =>
      match detection.mime
      case Fail(e) => Fail(e)
      case Ok(mime) =>
        match uuid
        case Fail(e) => Fail(e)
        case Ok(id) =>
          var data := Remaining(entry.reader, detection.consumed);
          var compression := CompressionFor(size);
          var ik := GenerateIvAndKey(ivRead, keyRead);
          if ik.err.Some? then Fail(ik.err.value)
          else
            match AesReader(ik.iv, ik.key, Payload(size, data))
            case Fail(e) => Fail(e)
            case Ok(reader) =>
              Ok(AttachmentType(
                id := id,
                mimeType := mime,
                fileName := entry.path,
                size := size,
                compression := compression,
                reader := reader,
                checksum := [],
                key := ik.key,
                iv := ik.iv))
  }

  /** What a reader still yields after `n` bytes have been taken from it. */
  function Remaining(data: seq<byte>, n: nat): (rest: seq<byte>)
    ensures n <= |data| ==> data == data[..n] + rest
    ensures n >= |data| ==> rest == []
  {
    if n <= |data| then data[n..] else []
  }

  /** What a recipient does with a descriptor: undo the cipher layer with the
      descriptor's key and IV, then decompress when it is tagged `zlib`. */
  function Unwrap(reader: Stream, key: seq<byte>, iv: seq<byte>, compression: string): (r: Option<seq<byte>>)
  {
    match reader
    case CfbDecrypter(k, v, inner) =>
      if k != key || v != iv then None
      else if compression == Zlib then
        (match inner
         case ZlibCompressed(Source(data)) => Some(data)
         case _ => None)
      else
        (match inner
         case Source(data) => Some(data)
         case _ => None)
    case _ => None
  }

  /** A block added with AddBlock gives its reader's bytes back to whoever
      holds its key and IV, below and above the compression threshold. */
  lemma BlockRoundTrip(entry: Block, uuid: Result<string>, ivRead: RandomRead, keyRead: RandomRead)
    requires |ivRead.buffer| == IvSize && |keyRead.buffer| == KeySize
    requires NewBlock(entry, uuid, ivRead, keyRead).Ok?
    ensures var b := NewBlock(entry, uuid, ivRead, keyRead).value;
      Unwrap(b.reader, b.key, b.iv, b.compression) == Some(entry.reader)
  {
  }

  /** An attachment gives back what its reader yielded after mime detection:
      the whole of it only when detection took nothing. */
  lemma AttachmentRoundTrip(entry: Attachment, stat: Result<nat>, detection: Detection, uuid: Result<string>,
                            ivRead: RandomRead, keyRead: RandomRead)
    requires |ivRead.buffer| == IvSize && |keyRead.buffer| == KeySize
    requires NewAttachment(entry, stat, detection, uuid, ivRead, keyRead).Ok?
    ensures var a := NewAttachment(entry, stat, detection, uuid, ivRead, keyRead).value;
      && Unwrap(a.reader, a.key, a.iv, a.compression) == Some(Remaining(entry.reader, detection.consumed))
      && ((Unwrap(a.reader, a.key, a.iv, a.compression) == Some(entry.reader))
            <==> (detection.consumed == 0 || entry.reader == []))
  {
    var rest := Remaining(entry.reader, detection.consumed);
    if detection.consumed > 0 && entry.reader != [] {
      if detection.consumed <= |entry.reader| {
        assert |rest| < |entry.reader|;
      }
    }
  }

  /** Once the IV read has succeeded, key generation never leaves an IV that
      would make `cipher.NewCFBDecrypter` panic behind a key `aes.NewCipher`
      accepts: every failure of the cipher step is `aes.NewCipher` refusing
      the nil key of a short read. */
  lemma CipherStepNeverPanics(ivRead: RandomRead, keyRead: RandomRead, r: Stream)
    requires |ivRead.buffer| == IvSize && |keyRead.buffer| == KeySize
    requires GenerateIvAndKey(ivRead, keyRead).err.None?
    ensures var ik := GenerateIvAndKey(ivRead, keyRead);
      AesReader(ik.iv, ik.key, r).Fail? ==> AesReader(ik.iv, ik.key, r) == Fail(KeySizeError(0))
  {
  }

  class Catalog {
    var from: Sender
    var to: Recipient
    var createdAt: Time
    var threadId: string
    var subject: string
    var flags: seq<string>
    var labels: seq<string>
    var blocks: seq<BlockType>
    var attachments: seq<AttachmentType>

    /** NewCatalog(ai): the sender fields come from the account; everything
        else is empty until the caller fills it in. `now` is `time.Now()`. */
    constructor (ai: AccountInfo, now: int)
      ensures from == Sender(ai.address, ai.name, ai.organisation, ProofOfWork(ai.pow.bits, ai.pow.proof), ai.pubKey)
      ensures createdAt == Instant(now)
      ensures to == Recipient("", "") && threadId == "" && subject == ""
      ensures flags == [] && labels == [] && blocks == [] && attachments == []
    {
      from := Sender(ai.address, ai.name, ai.organisation, ProofOfWork(ai.pow.bits, ai.pow.proof), ai.pubKey);
      to := Recipient("", "");
      createdAt := Instant(now);
      threadId, subject := "", "";
      flags, labels := [], [];
      blocks, attachments := [], [];
    }

    /** AddBlock(entry): on success exactly one descriptor is appended; on any
        error the catalog is as it was. */
    method AddBlock(entry: Block, uuid: Result<string>, ivRead: RandomRead, keyRead: RandomRead)
      returns (err: Option<Error>)
      requires |ivRead.buffer| == IvSize && |keyRead.buffer| == KeySize
      modifies this
      ensures var nb := NewBlock(entry, uuid, ivRead, keyRead);
        && (err.None? <==> nb.Ok?)
        && (nb.Fail? ==> err == Some(nb.err) && blocks == old(blocks))
        && (nb.Ok? ==> blocks == old(blocks) + [nb.value])
      ensures attachments == old(attachments)
      ensures from == old(from) && to == old(to) && createdAt == old(createdAt)
      ensures threadId == old(threadId) && subject == old(subject)
      ensures flags == old(flags) && labels == old(labels)
    {
      var nb := NewBlock(entry, uuid, ivRead, keyRead);
      match nb {
        case Fail(e) =>
          return Some(e);
        case Ok(bt) =>
          blocks := blocks + [bt];
          return None;
      }
    }

    /** AddAttachment(entry): on success exactly one descriptor is appended;
        on any error the catalog is as it was. */
    method AddAttachment(entry: Attachment, stat: Result<nat>, detection: Detection, uuid: Result<string>,
                         ivRead: RandomRead, keyRead: RandomRead)
      returns (err: Option<Error>)
      requires |ivRead.buffer| == IvSize && |keyRead.buffer| == KeySize
      modifies this
      ensures var na := NewAttachment(entry, stat, detection, uuid, ivRead, keyRead);
        && (err.None? <==> na.Ok?)
        && (na.Fail? ==> err == Some(na.err) && attachments == old(attachments))
        && (na.Ok? ==> attachments == old(attachments) + [na.value])
      ensures blocks == old(blocks)
      ensures from == old(from) && to == old(to) && createdAt == old(createdAt)
      ensures threadId == old(threadId) && subject == old(subject)
      ensures flags == old(flags) && labels == old(labels)
    {
      var na := NewAttachment(entry, stat, detection, uuid, ivRead, keyRead);
      match na {
        case Fail(e) =>
          return Some(e);
        case Ok(at) =>
          attachments := attachments + [at];
          return None;
      }
    }
  }
}
