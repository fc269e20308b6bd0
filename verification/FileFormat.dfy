/** The encrypted file format: a header, then one length-prefixed sealed frame per chunk. */
module FileFormat {
  import opened Bytes

  const CHUNK_SIZE: nat := 1_048_576
  const MAX_CHUNKS: nat := 0x1_0000_0000

  /** The key of one file version, its nonce prefix, and the secret id and version bound into every frame. */
  datatype Seal = Seal(key: Bytes, prefix: Bytes, secretId: Bytes, version: int) {
    ghost predicate Valid() {
      |prefix| == 8 && |secretId| == 16 && FitsU32(version)
    }

    function Nonce(index: int): Bytes
      requires FitsU32(index)
    {
      prefix + PackU32(index)
    }

    function Aad(index: int): Bytes
      requires FitsU32(index) && FitsU32(version)
    {
      secretId + PackU32(version) + PackU32(index)
    }
  }

  datatype Error = BadHeader | Truncated | InvalidTag | IndexOverflow

  datatype Result = Ok(text: Bytes) | Failed(error: Error) {

    /** The result of a whole read whose first part yielded `before` and whose rest yields this. */
    function After(before: Bytes): Result {
      if Ok? then Ok(before + text) else this
    }
  }

  function Magic(): Bytes {
    [0x50, 0x48, 0x41, 0x4E, 0x54, 0x4F, 0x4D, 0x31]
  }

  function Header(prefix: Bytes): Bytes {
    Magic() + prefix + PackU32(CHUNK_SIZE)
  }

  function ChunkLength(x: Bytes): nat {
    if |x| < CHUNK_SIZE then |x| else CHUNK_SIZE
  }

  function Chunks(x: Bytes): nat
  {
    if x == [] then 0 else 1 + Chunks(x[ChunkLength(x)..])
  }

  function Frame(a: Aead, s: Seal, chunk: Bytes, index: int): Bytes
    requires FitsU32(index) && FitsU32(s.version)
    requires FitsU32(|a.seal(s.key, s.Nonce(index), s.Aad(index), chunk)|)
  {
    var cipher := a.seal(s.key, s.Nonce(index), s.Aad(index), chunk);
    PackU32(|cipher|) + cipher
  }

  /** The frames of a text whose first chunk has the given index. */
  ghost function Frames(a: Aead, s: Seal, x: Bytes, index: nat): Bytes
    requires a.Correct() && FitsU32(s.version) && index + Chunks(x) <= MAX_CHUNKS
    decreases |x|
  {
    if x == [] then []
    else Frame(a, s, x[..ChunkLength(x)], index) + Frames(a, s, x[ChunkLength(x)..], index + 1)
  }

  ghost function Encrypted(a: Aead, s: Seal, x: Bytes): Bytes
    requires a.Correct() && FitsU32(s.version) && Chunks(x) <= MAX_CHUNKS
  {
    Header(s.prefix) + Frames(a, s, x, 0)
  }

  /** Reading frames until the end of the stream. */
  function Parse(a: Aead, s: Seal, stream: Bytes, index: nat): Result
    requires FitsU32(s.version)
    decreases |stream|
  {
    if stream == [] then Ok([])
    else if |stream| < 4 then Failed(Truncated)
    else
      var length := UnpackU32(stream[..4]);
      if |stream| < 4 + length then Failed(Truncated)
      else if !FitsU32(index) then Failed(IndexOverflow)
      else
        match a.open(s.key, s.Nonce(index), s.Aad(index), stream[4..4 + length])
        case None => Failed(InvalidTag)
        case Some(chunk) =>
          Parse(a, s, stream[4 + length..], index + 1).After(chunk)
  }

  /** Decryption takes the nonce prefix from the stream and ignores the chunk size that follows it. */
  function Decrypted(a: Aead, s: Seal, stream: Bytes): Result
    requires FitsU32(s.version)
  {
    if |stream| < 20 || stream[..8] != Magic() then Failed(BadHeader)
    else Parse(a, s.(prefix := stream[8..16]), stream[20..], 0)
  }

  // ---------- Round trip, size, nonces ----------

  lemma FrameSplits(frame: Bytes, length: int, rest: Bytes)
    requires FitsU32(length) && |frame| == 4 + length && frame[..4] == PackU32(length)
    ensures
      var stream := frame + rest;
      stream[..4] == PackU32(length) && stream[4..4 + length] == frame[4..] && stream[4 + length..] == rest
  {
  }

  lemma {:induction false} ParseFrames(a: Aead, s: Seal, x: Bytes, index: nat)
    requires a.Correct() && FitsU32(s.version) && index + Chunks(x) <= MAX_CHUNKS
    ensures Parse(a, s, Frames(a, s, x, index), index) == Ok(x)
    decreases |x|
  {
    if x != [] {
      var n := ChunkLength(x);
      var frame, rest := Frame(a, s, x[..n], index), Frames(a, s, x[n..], index + 1);
      var cipher := a.seal(s.key, s.Nonce(index), s.Aad(index), x[..n]);
      UnpackPack(|cipher|);
      FrameSplits(frame, |cipher|, rest);
      assert frame[4..] == cipher;
      ParseFrames(a, s, x[n..], index + 1);
      assert x == x[..n] + x[n..];
    }
  }

  /** Decrypting an encrypted file yields the file, for every text of at most 2^32 chunks. */
  lemma RoundTrip(a: Aead, s: Seal, x: Bytes)
    requires a.Correct() && s.Valid() && Chunks(x) <= MAX_CHUNKS
    ensures Decrypted(a, s, Encrypted(a, s, x)) == Ok(x)
  {
    var stream := Encrypted(a, s, x);
    assert stream[..8] == Magic() && stream[8..16] == s.prefix && stream[20..] == Frames(a, s, x, 0);
    ParseFrames(a, s, x, 0);
  }

  lemma {:induction false} ChunksIsCeiling(x: Bytes)
    ensures Chunks(x) == (|x| + CHUNK_SIZE - 1) / CHUNK_SIZE
    decreases |x|
  {
    if x != [] {
      ChunksIsCeiling(x[ChunkLength(x)..]);
    }
  }

  lemma {:induction false} FramesSize(a: Aead, s: Seal, x: Bytes, index: nat)
    requires a.Correct() && FitsU32(s.version) && index + Chunks(x) <= MAX_CHUNKS
    ensures |Frames(a, s, x, index)| == |x| + 20 * Chunks(x)
    decreases |x|
  {
    if x != [] {
      FramesSize(a, s, x[ChunkLength(x)..], index + 1);
    }
  }

  lemma EncryptedSize(a: Aead, s: Seal, x: Bytes)
    requires a.Correct() && s.Valid() && Chunks(x) <= MAX_CHUNKS
    ensures |Encrypted(a, s, x)| == 20 + |x| + 20 * ((|x| + CHUNK_SIZE - 1) / CHUNK_SIZE)
  {
    FramesSize(a, s, x, 0);
    ChunksIsCeiling(x);
  }

  lemma NoncesDistinct(s: Seal, i: int, j: int)
    requires FitsU32(i) && FitsU32(j) && FitsU32(s.version)
    ensures (s.Nonce(i) == s.Nonce(j) <==> i == j) && (s.Aad(i) == s.Aad(j) <==> i == j)
  {
    var p, q := s.prefix, s.secretId + PackU32(s.version);
    assert s.Nonce(i)[|p|..] == PackU32(i) && s.Nonce(j)[|p|..] == PackU32(j);
    assert s.Aad(i)[|q|..] == PackU32(i) && s.Aad(j)[|q|..] == PackU32(j);
    if PackU32(i) == PackU32(j) {
      PackInjective(i, j);
    }
  }

  // ---------- Cut streams ----------

  /** How much text the first k chunks hold. */
  function TextEnd(x: Bytes, k: nat): (n: nat)
    ensures n <= |x|
  {
    if k * CHUNK_SIZE < |x| then k * CHUNK_SIZE else |x|
  }

  /** Where the k-th frame ends, counted from the end of the header. */
  function FrameEnd(x: Bytes, k: nat): nat {
    20 * k + TextEnd(x, k)
  }

  lemma FrameEndStep(x: Bytes, k: nat)
    requires x != [] && k >= 1
    ensures var n := ChunkLength(x); FrameEnd(x, k) == 20 + n + FrameEnd(x[n..], k - 1)
    ensures var n := ChunkLength(x); x[..TextEnd(x, k)] == x[..n] + x[n..][..TextEnd(x[n..], k - 1)]
  {
  }

  ghost predicate EndsOnFrame(x: Bytes, n: nat) {
    exists k: nat :: k <= Chunks(x) && n == FrameEnd(x, k)
  }

  lemma EndsOnLaterFrame(x: Bytes, n: nat)
    requires x != [] && n >= 20 + ChunkLength(x)
    ensures EndsOnFrame(x, n) <==> EndsOnFrame(x[ChunkLength(x)..], n - 20 - ChunkLength(x))
  {
    var rest, m := x[ChunkLength(x)..], n - 20 - ChunkLength(x);
    if EndsOnFrame(x, n) {
      var k: nat :| k <= Chunks(x) && n == FrameEnd(x, k);
      FrameEndStep(x, k);
      assert k - 1 <= Chunks(rest) && m == FrameEnd(rest, k - 1);
    }
    if EndsOnFrame(rest, m) {
      var k: nat :| k <= Chunks(rest) && m == FrameEnd(rest, k);
      FrameEndStep(x, k + 1);
      assert k + 1 <= Chunks(x) && n == FrameEnd(x, k + 1);
    }
  }

  lemma CutInsideFrame(a: Aead, s: Seal, x: Bytes, index: nat, n: nat)
    requires a.Correct() && FitsU32(s.version) && index + Chunks(x) <= MAX_CHUNKS
    requires x != [] && 0 < n < 20 + ChunkLength(x)
    ensures n <= |Frames(a, s, x, index)| && Parse(a, s, Frames(a, s, x, index)[..n], index) == Failed(Truncated)
    ensures !EndsOnFrame(x, n)
  {
    var stream := Frames(a, s, x, index);
    var cipher := a.seal(s.key, s.Nonce(index), s.Aad(index), x[..ChunkLength(x)]);
    UnpackPack(|cipher|);
    assert stream[..4] == PackU32(|cipher|);
    if n >= 4 {
      assert stream[..n][..4] == PackU32(|cipher|);
    }
    forall k: nat | k >= 1 ensures FrameEnd(x, k) > n {
      FrameEndStep(x, k);
    }
  }

  lemma CutAfterFrame(a: Aead, s: Seal, x: Bytes, index: nat, n: nat)
    requires a.Correct() && FitsU32(s.version) && index + Chunks(x) <= MAX_CHUNKS && x != []
    requires 20 + ChunkLength(x) <= n <= |Frames(a, s, x, index)|
    ensures
      var l := ChunkLength(x);
      var rest := Frames(a, s, x[l..], index + 1);
      && n - 20 - l <= |rest|
      && Parse(a, s, Frames(a, s, x, index)[..n], index) == Parse(a, s, rest[..n - 20 - l], index + 1).After(x[..l])
  {
    var l := ChunkLength(x);
    var frame, rest := Frame(a, s, x[..l], index), Frames(a, s, x[l..], index + 1);
    var cipher := a.seal(s.key, s.Nonce(index), s.Aad(index), x[..l]);
    UnpackPack(|cipher|);
    assert (frame + rest)[..n] == frame + rest[..n - |frame|];
    FrameSplits(frame, |cipher|, rest[..n - |frame|]);
    assert frame[4..] == cipher;
  }

  lemma {:induction false} CutFrames(a: Aead, s: Seal, x: Bytes, index: nat, n: nat)
    requires a.Correct() && FitsU32(s.version) && index + Chunks(x) <= MAX_CHUNKS && n <= |Frames(a, s, x, index)|
    ensures Parse(a, s, Frames(a, s, x, index)[..n], index).Ok? <==> EndsOnFrame(x, n)
    ensures
      forall k: nat :: k <= Chunks(x) && n == FrameEnd(x, k)
        ==> Parse(a, s, Frames(a, s, x, index)[..n], index) == Ok(x[..TextEnd(x, k)])
    decreases |x|
  {
    if n == 0 {
      assert FrameEnd(x, 0) == 0;
    } else if n < 20 + ChunkLength(x) {
      CutInsideFrame(a, s, x, index, n);
    } else {
      var l := ChunkLength(x);
      CutAfterFrame(a, s, x, index, n);
      EndsOnLaterFrame(x, n);
      CutFrames(a, s, x[l..], index + 1, n - 20 - l);
      forall k: nat | k <= Chunks(x) && n == FrameEnd(x, k)
        ensures Parse(a, s, Frames(a, s, x, index)[..n], index) == Ok(x[..TextEnd(x, k)])
      {
        FrameEndStep(x, k);
      }
    }
  }

  /** A cut of an encrypted file is accepted exactly when it holds the header and ends on a frame, and then yields the
      chunks of the frames that are left. */
  lemma CutStream(a: Aead, s: Seal, x: Bytes, n: nat)
    requires a.Correct() && s.Valid() && Chunks(x) <= MAX_CHUNKS && n <= |Encrypted(a, s, x)|
    ensures Decrypted(a, s, Encrypted(a, s, x)[..n]).Ok? <==> n >= 20 && EndsOnFrame(x, n - 20)
    ensures
      forall k: nat :: k <= Chunks(x) && n == 20 + FrameEnd(x, k)
        ==> Decrypted(a, s, Encrypted(a, s, x)[..n]) == Ok(x[..TextEnd(x, k)])
  {
    var stream := Encrypted(a, s, x);
    if n >= 20 {
      assert stream[..n][..8] == Magic() && stream[..n][8..16] == s.prefix;
      assert stream[..n][20..] == Frames(a, s, x, 0)[..n - 20];
      CutFrames(a, s, x, 0, n - 20);
    }
  }

  // ---------- Forged streams ----------

  /** What the key of a file version has sealed: its chunks. */
  ghost function SealedChunks(s: Seal, x: Bytes): set<(Bytes, Bytes, Bytes)>
    requires FitsU32(s.version) && Chunks(x) <= MAX_CHUNKS
  {
    set j: nat | j < Chunks(x) :: (s.Nonce(j), s.Aad(j), x[TextEnd(x, j)..TextEnd(x, j + 1)])
  }

  /** y is the text of the k chunks that start at the given index. */
  ghost predicate ChunkRun(x: Bytes, index: nat, k: nat, y: Bytes) {
    && (k == 0 || index + k <= Chunks(x))
    && TextEnd(x, index) <= TextEnd(x, index + k)
    && y == x[TextEnd(x, index)..TextEnd(x, index + k)]
  }

  lemma OpensOnlyItsChunk(a: Aead, s: Seal, prefix: Bytes, x: Bytes, others: set<(Bytes, Bytes, Bytes)>, cipher: Bytes,
                          index: nat)
    requires s.Valid() && Chunks(x) <= MAX_CHUNKS && FitsU32(index)
    requires a.NoForgery(s.key, SealedChunks(s, x) + others, cipher)
    requires forall o :: o in others ==> |o.1| != 24
    requires a.open(s.key, s.(prefix := prefix).Nonce(index), s.Aad(index), cipher).Some?
    ensures index < Chunks(x)
    ensures ChunkRun(x, index, 1, a.open(s.key, s.(prefix := prefix).Nonce(index), s.Aad(index), cipher).value)
  {
    var nonce := s.(prefix := prefix).Nonce(index);
    var entry := (nonce, s.Aad(index), a.open(s.key, nonce, s.Aad(index), cipher).value);
    assert cipher[0..|cipher|] == cipher;
    assert entry in SealedChunks(s, x);
    var j: nat :| j < Chunks(x) && entry == (s.Nonce(j), s.Aad(j), x[TextEnd(x, j)..TextEnd(x, j + 1)]);
    NoncesDistinct(s, index, j);
  }

  lemma NoForgeryInPart(a: Aead, key: Bytes, sealed: set<(Bytes, Bytes, Bytes)>, stream: Bytes, lo: nat, hi: nat)
    requires lo <= hi <= |stream| && a.NoForgery(key, sealed, stream)
    ensures a.NoForgery(key, sealed, stream[lo..hi])
  {
    forall i, j, nonce, aad | 0 <= i <= j <= hi - lo && a.open(key, nonce, aad, stream[lo..hi][i..j]).Some?
      ensures (nonce, aad, a.open(key, nonce, aad, stream[lo..hi][i..j]).value) in sealed
    {
      SliceOfSlice(stream, lo, hi, i, j);
    }
  }

  lemma RunGrows(x: Bytes, index: nat, k: nat, chunk: Bytes, rest: Bytes)
    requires index < Chunks(x) && ChunkRun(x, index, 1, chunk) && ChunkRun(x, index + 1, k, rest)
    ensures ChunkRun(x, index, k + 1, chunk + rest)
  {
  }

  /** What the first frame of an accepted stream looks like. */
  lemma FirstFrame(a: Aead, s: Seal, stream: Bytes, index: nat)
    requires FitsU32(s.version) && stream != [] && Parse(a, s, stream, index).Ok?
    ensures |stream| >= 4 && FitsU32(index)
    ensures
      var length := UnpackU32(stream[..4]);
      && 4 + length <= |stream|
      && Parse(a, s, stream[4 + length..], index + 1).Ok?
      && a.open(s.key, s.Nonce(index), s.Aad(index), stream[4..4 + length]).Some?
      && Parse(a, s, stream, index).text
         == a.open(s.key, s.Nonce(index), s.Aad(index), stream[4..4 + length]).value
            + Parse(a, s, stream[4 + length..], index + 1).text
  {
    hide UnpackU32, PackU32, Seal.Nonce, Seal.Aad;
  }

  lemma {:induction false} AcceptedFrames(a: Aead, s: Seal, prefix: Bytes, x: Bytes,
                                          others: set<(Bytes, Bytes, Bytes)>, stream: Bytes, index: nat)
    requires s.Valid() && Chunks(x) <= MAX_CHUNKS
    requires a.NoForgery(s.key, SealedChunks(s, x) + others, stream)
    requires forall o :: o in others ==> |o.1| != 24
    requires Parse(a, s.(prefix := prefix), stream, index).Ok?
    ensures exists k: nat :: ChunkRun(x, index, k, Parse(a, s.(prefix := prefix), stream, index).text)
    decreases |stream|
  {
    var s' := s.(prefix := prefix);
    hide Magic, TextEnd, UnpackU32, PackU32, Chunks, SealedChunks, Seal.Nonce, Seal.Aad, Aead.NoForgery, ChunkRun;
    if stream == [] {
      NoFrames(a, s', x, index);
    } else {
      hide Parse;
      FirstFrame(a, s', stream, index);
      var length := UnpackU32(stream[..4]);
      var chunk := a.open(s.key, s'.Nonce(index), s'.Aad(index), stream[4..4 + length]).value;
      var rest := Parse(a, s', stream[4 + length..], index + 1).text;
      NoForgeryInPart(a, s.key, SealedChunks(s, x) + others, stream, 4, 4 + length);
      NoForgeryInPart(a, s.key, SealedChunks(s, x) + others, stream, 4 + length, |stream|);
      assert stream[4 + length..|stream|] == stream[4 + length..];
      SameAad(s, prefix, index);
      OpensOnlyItsChunk(a, s, prefix, x, others, stream[4..4 + length], index);
      AcceptedFrames(a, s, prefix, x, others, stream[4 + length..], index + 1);
      var k: nat :| ChunkRun(x, index + 1, k, rest);
      RunGrows(x, index, k, chunk, rest);
    }
  }

  lemma NoFrames(a: Aead, s: Seal, x: Bytes, index: nat)
    requires FitsU32(s.version)
    ensures Parse(a, s, [], index) == Ok([]) && ChunkRun(x, index, 0, [])
  {
  }

  lemma SameAad(s: Seal, prefix: Bytes, index: nat)
    requires FitsU32(s.version) && FitsU32(index)
    ensures s.(prefix := prefix).Aad(index) == s.Aad(index)
  {
  }

  /** If only this file's chunks, and texts with other associated data, were ever sealed under the key, then every
      stream that decryption accepts yields the first chunks of the file: frames cannot be reordered, repeated,
      dropped from the front or brought in from elsewhere. */
  lemma AcceptedStreamIsPrefix(a: Aead, s: Seal, x: Bytes, others: set<(Bytes, Bytes, Bytes)>, stream: Bytes)
    requires s.Valid() && Chunks(x) <= MAX_CHUNKS
    requires a.NoForgery(s.key, SealedChunks(s, x) + others, stream)
    requires forall o :: o in others ==> |o.1| != 24
    requires Decrypted(a, s, stream).Ok?
    ensures exists k: nat :: k <= Chunks(x) && Decrypted(a, s, stream).text == x[..TextEnd(x, k)]
  {
    NoForgeryInPart(a, s.key, SealedChunks(s, x) + others, stream, 20, |stream|);
    assert stream[20..|stream|] == stream[20..];
    AcceptedFrames(a, s, stream[8..16], x, others, stream[20..], 0);
    var y := Decrypted(a, s, stream).text;
    var k: nat :| ChunkRun(x, 0, k, y);
    assert y == x[..TextEnd(x, k)];
  }

  // ---------- The loops ----------

  lemma NextFrame(a: Aead, s: Seal, src: Bytes, pos: nat, dst: Bytes, index: nat)
    requires a.Correct() && s.Valid() && pos < |src| && FitsU32(index)
    ensures
      var n := ChunkLength(src[pos..]);
      var cipher := a.seal(s.key, s.Nonce(index), s.Aad(index), src[pos..pos + n]);
      && Chunks(src[pos..]) == 1 + Chunks(src[pos + n..])
      && (index + Chunks(src[pos..]) <= MAX_CHUNKS
          ==> dst + Frames(a, s, src[pos..], index)
              == dst + PackU32(|cipher|) + cipher + Frames(a, s, src[pos + n..], index + 1))
  {
    var n := ChunkLength(src[pos..]);
    assert src[pos..][..n] == src[pos..pos + n] && src[pos..][n..] == src[pos + n..];
  }

  lemma FramesEnd(a: Aead, s: Seal, src: Bytes, index: nat)
    requires a.Correct() && s.Valid()
    ensures Chunks(src[|src|..]) == 0 && (index <= MAX_CHUNKS ==> Frames(a, s, src[|src|..], index) == [])
  {
  }

  /** Reads the source chunk by chunk; packing the index fails after 2^32 chunks. */
  method EncryptFile(a: Aead, s: Seal, src: Bytes,
                     sha: Bytes -> Bytes) returns (ok: bool, dst: Bytes, total: nat, digest: Bytes)
    requires a.Correct() && s.Valid()
    ensures ok <==> Chunks(src) <= MAX_CHUNKS
    ensures ok ==> dst == Encrypted(a, s, src) && total == |src| && digest == sha(src)
  {
    hide Frames, PackU32, Magic;
    dst, total, digest := Header(s.prefix), 0, [];
    var index, pos := 0, 0;
    while pos < |src|
      invariant 0 <= pos <= |src| && total == pos
      invariant index <= MAX_CHUNKS && Chunks(src) == index + Chunks(src[pos..])
      invariant Chunks(src) <= MAX_CHUNKS ==> Encrypted(a, s, src) == dst + Frames(a, s, src[pos..], index)
    {
      var n := ChunkLength(src[pos..]);
      var chunk := src[pos..pos + n];
      total := total + |chunk|;
      if !FitsU32(index) {
        return false, dst, total, [];
      }
      var cipher := a.seal(s.key, s.Nonce(index), s.Aad(index), chunk);
      NextFrame(a, s, src, pos, dst, index);
      dst := dst + PackU32(|cipher|);
      dst := dst + cipher;
      index, pos := index + 1, pos + n;
    }
    FramesEnd(a, s, src, index);
    return true, dst, total, sha(src);
  }

  lemma AfterTwice(r: Result, before: Bytes, chunk: Bytes)
    ensures r.After(chunk).After(before) == r.After(before + chunk)
  {
  }

  lemma ParseStep(a: Aead, s: Seal, src: Bytes, pos: nat, index: nat, dst: Bytes)
    requires FitsU32(s.version) && pos < |src|
    ensures
      var r := Parse(a, s, src[pos..], index).After(dst);
      if |src| - pos < 4 then r == Failed(Truncated)
      else
        var length := UnpackU32(src[pos..pos + 4]);
        if |src| - pos < 4 + length then r == Failed(Truncated)
        else if !FitsU32(index) then r == Failed(IndexOverflow)
        else
          var chunk := a.open(s.key, s.Nonce(index), s.Aad(index), src[pos + 4..pos + 4 + length]);
          if chunk.None? then r == Failed(InvalidTag)
          else r == Parse(a, s, src[pos + 4 + length..], index + 1).After(dst + chunk.value)
  {
    var stream := src[pos..];
    if |stream| >= 4 {
      assert stream[..4] == src[pos..pos + 4];
      var length := UnpackU32(stream[..4]);
      if |stream| >= 4 + length && FitsU32(index) {
        assert stream[4..4 + length] == src[pos + 4..pos + 4 + length];
        assert stream[4 + length..] == src[pos + 4 + length..];
        var chunk := a.open(s.key, s.Nonce(index), s.Aad(index), stream[4..4 + length]);
        if chunk.Some? {
          AfterTwice(Parse(a, s, stream[4 + length..], index + 1), dst, chunk.value);
        }
      }
    }
  }

  /** Writes each chunk as soon as its frame opens; a failure leaves what was written before. */
  method DecryptFile(a: Aead, s: Seal, src: Bytes) returns (r: Result, dst: Bytes)
    requires FitsU32(s.version)
    ensures r == Decrypted(a, s, src)
    ensures r.Ok? ==> dst == r.text
  {
    hide Parse, UnpackU32;
    dst := [];
    if |src| < 20 || src[..8] != Magic() {
      return Failed(BadHeader), dst;
    }
    var s' := s.(prefix := src[8..16]);
    ghost var whole := Decrypted(a, s, src);
    var index, pos := 0, 20;
    while pos < |src|
      invariant 20 <= pos <= |src| && 0 <= index
      invariant whole == Parse(a, s', src[pos..], index).After(dst)
    {
      ParseStep(a, s', src, pos, index, dst);
      if |src| - pos < 4 {
        return Failed(Truncated), dst;
      }
      var length := UnpackU32(src[pos..pos + 4]);
      if |src| - pos < 4 + length {
        return Failed(Truncated), dst;
      }
      if !FitsU32(index) {
        return Failed(IndexOverflow), dst;
      }
      var chunk := a.open(s.key, s'.Nonce(index), s'.Aad(index), src[pos + 4..pos + 4 + length]);
      if chunk.None? {
        return Failed(InvalidTag), dst;
      }
      dst := dst + chunk.value;
      index, pos := index + 1, pos + 4 + length;
    }
    ParseEnd(a, s', src, index);
    return Ok(dst), dst;
  }

  lemma ParseEnd(a: Aead, s: Seal, src: Bytes, index: nat)
    requires FitsU32(s.version)
    ensures Parse(a, s, src[|src|..], index) == Ok([])
  {
  }
}
