/** One text secret's encrypted history: the rows of secrets, secret_keys and secret_versions, and the operations that
    must keep the three in agreement. */
module VersionHistory {
  import opened Bytes

  datatype Sealed = Sealed(cipher: Bytes, nonce: Bytes)

  /** The payload constraint: a text row has content, a file row has none. */
  datatype VersionRow =
    | TextRow(content: Sealed, keyVersion: Option<nat>, size: nat)
    | FileRow(keyVersion: Option<nat>, size: nat)

  datatype SecretRow = SecretRow(isText: bool, content: Option<Sealed>, currentVersion: nat, expiresAt: int)

  datatype Tables = Tables(secret: Option<SecretRow>, keys: map<nat, Sealed>, versions: map<nat, VersionRow>)

  /** The random values an operation draws. */
  datatype Draw = Draw(dek: Bytes, wrapNonce: Bytes, contentNonce: Bytes)

  datatype Op =
    | Update(owns: bool, now: int, expected: int, text: Bytes, draw: Draw)
    | Restore(owns: bool, version: int, draw: Draw)
    | Rotate(owns: bool, draw: Draw)

  datatype Outcome =
    | Saved(version: nat)
    | Rotated(keyVersion: nat)
    | NotFound
    | Forbidden
    | Expired
    | NotText
    | Conflict(current: nat)
    | Full
    | NoServerKey
    | VersionMissing
    | NotRestorable
    | DuplicateVersion
    | KeyMissing
    | CryptoFailed
    | NullContent

  datatype Reading = Text(text: Bytes, clientEncrypted: bool) | Unreadable(reason: Outcome)

  /** The cipher, the master key that wraps every data key, and MAX_SECRET_VERSIONS. */
  datatype Vault = Vault(aead: Aead, kek: Bytes, maxVersions: nat) {
    function Wrap(d: Draw): Sealed {
      Sealed(aead.seal(kek, d.wrapNonce, [], d.dek), d.wrapNonce)
    }

    function Unwrap(wrapped: Sealed): Option<Bytes> {
      aead.open(kek, wrapped.nonce, [], wrapped.cipher)
    }

    function Encrypt(text: Bytes, d: Draw): Sealed {
      Sealed(aead.seal(d.dek, d.contentNonce, [], text), d.contentNonce)
    }

    function Decrypt(content: Sealed, dek: Bytes): Option<Bytes> {
      aead.open(dek, content.nonce, [], content.cipher)
    }
  }

  // ---------- Keys ----------

  lemma {:induction false} MaxExists(s: set<nat>)
    requires s != {}
    ensures exists m :: m in s && forall k :: k in s ==> k <= m
    decreases |s|
  {
    var x :| x in s;
    var rest := s - {x};
    assert forall k :: k in s ==> k in rest || k == x;
    if rest == {} {
      assert forall k :: k in s ==> k <= x;
    } else {
      MaxExists(rest);
      var m :| m in rest && forall k :: k in rest ==> k <= m;
      var top := if x <= m then m else x;
      assert top in s && forall k :: k in s ==> k <= top;
    }
  }

  /** COALESCE(MAX(version), 0). */
  function LatestKey(keys: map<nat, Sealed>): (m: nat)
    ensures m == 0 || m in keys
    ensures forall k :: k in keys ==> k <= m
  {
    if keys.Keys == {} then 0
    else
      MaxExists(keys.Keys);
      var m :| m in keys.Keys && forall k :: k in keys.Keys ==> k <= m;
      m
  }

  function DekOf(v: Vault, keys: map<nat, Sealed>, keyVersion: nat): (r: Option<Bytes>)
    requires keyVersion in keys
  {
    v.Unwrap(keys[keyVersion])
  }

  // ---------- The transactions as functions ----------

  function WithTextVersion(v: Vault, t: Tables, version: nat, text: Bytes, d: Draw): (Tables, Outcome)
    requires t.secret.Some?
  {
    var key := LatestKey(t.keys) + 1;
    var sealed := v.Encrypt(text, d);
    if version in t.versions then (t, DuplicateVersion)
    else
      (Tables(Some(t.secret.value.(content := Some(sealed), currentVersion := version)),
              t.keys[key := v.Wrap(d)],
              t.versions[version := TextRow(sealed, Some(key), |text|)]),
       Saved(version))
  }

  function UpdateSecret(v: Vault, t: Tables, op: Op): (Tables, Outcome)
    requires op.Update?
  {
    if t.secret.None? then (t, NotFound)
    else
      var row := t.secret.value;
      if !op.owns then (t, Forbidden)
      else if row.expiresAt <= op.now then (t, Expired)
      else if !row.isText then (t, NotText)
      else if row.currentVersion != op.expected then (t, Conflict(row.currentVersion))
      else if row.currentVersion >= v.maxVersions then (t, Full)
      else if row.currentVersion !in t.versions || t.versions[row.currentVersion].keyVersion.None? then (t, NoServerKey)
      else WithTextVersion(v, t, row.currentVersion + 1, op.text, op.draw)
  }

  function RestoreVersion(v: Vault, t: Tables, op: Op): (Tables, Outcome)
    requires op.Restore?
  {
    if t.secret.None? then (t, NotFound)
    else if !op.owns then (t, Forbidden)
    else if t.secret.value.currentVersion >= v.maxVersions then (t, Full)
    else if op.version < 0 || op.version !in t.versions then (t, VersionMissing)
    else
      var stored := t.versions[op.version];
      if stored.FileRow? || stored.keyVersion.None? then (t, NotRestorable)
      else if stored.keyVersion.value !in t.keys then (t, KeyMissing)
      else
        var dek := DekOf(v, t.keys, stored.keyVersion.value);
        if dek.None? then (t, CryptoFailed)
        else
          var text := v.Decrypt(stored.content, dek.value);
          if text.None? then (t, CryptoFailed)
          else WithTextVersion(v, t, t.secret.value.currentVersion + 1, text.value, op.draw)
  }

  /** The row of the current version is rewritten with the secret; the payload constraint refuses a file row. */
  function RotateKey(v: Vault, t: Tables, op: Op): (Tables, Outcome)
    requires op.Rotate?
  {
    if t.secret.None? then (t, NotFound)
    else if !op.owns then (t, Forbidden)
    else if t.keys.Keys == {} then (t, KeyMissing)
    else
      var row, latest := t.secret.value, LatestKey(t.keys);
      var dek := DekOf(v, t.keys, latest);
      if dek.None? then (t, CryptoFailed)
      else if row.content.None? then (t, NullContent)
      else
        var text := v.Decrypt(row.content.value, dek.value);
        if text.None? then (t, CryptoFailed)
        else
          var sealed, current := v.Encrypt(text.value, op.draw), row.currentVersion;
          if current in t.versions && t.versions[current].FileRow? then (t, NullContent)
          else
            (Tables(Some(row.(content := Some(sealed))),
                    t.keys[latest + 1 := v.Wrap(op.draw)],
                    if current in t.versions
                    then t.versions[current := t.versions[current].(content := sealed, keyVersion := Some(latest + 1))]
                    else t.versions),
             Rotated(latest + 1))
  }

  function Apply(v: Vault, t: Tables, op: Op): (Tables, Outcome) {
    match op
    case Update(_, _, _, _, _) => UpdateSecret(v, t, op)
    case Restore(_, _, _) => RestoreVersion(v, t, op)
    case Rotate(_, _) => RotateKey(v, t, op)
  }

  /** The decryption part of a retrieval: the latest key, or the stored ciphertext when there is no key. */
  function Retrieve(v: Vault, t: Tables): Reading {
    if t.secret.None? then Unreadable(NotFound)
    else if !t.secret.value.isText then Unreadable(NotText)
    else if t.secret.value.content.None? then Unreadable(NullContent)
    else if t.keys.Keys == {} then Text(t.secret.value.content.value.cipher, true)
    else
      match DekOf(v, t.keys, LatestKey(t.keys))
      case None => Unreadable(CryptoFailed)
      case Some(dek) =>
        match v.Decrypt(t.secret.value.content.value, dek)
        case None => Unreadable(CryptoFailed)
        case Some(text) => Text(text, false)
  }

  function Created(v: Vault, text: Bytes, expiresAt: int, d: Draw): Tables {
    var sealed := v.Encrypt(text, d);
    Tables(Some(SecretRow(true, Some(sealed), 1, expiresAt)), map[1 := v.Wrap(d)],
           map[1 := TextRow(sealed, Some(1), |text|)])
  }

  function CreatedClientEncrypted(sealed: Sealed, expiresAt: int, size: nat): Tables {
    Tables(Some(SecretRow(true, Some(sealed), 1, expiresAt)), map[], map[1 := TextRow(sealed, None, size)])
  }

  // ---------- The plain history ----------

  /** What the rows stand for: the texts of versions 1, 2, ..., and how many keys were made. */
  datatype History = History(texts: seq<Bytes>, keys: nat)

  /** The same operations on plain texts, with no cryptography and no tables. */
  function Plain(maxVersions: nat, expiresAt: int, h: History, op: Op): (History, Outcome) {
    if !op.owns then (h, Forbidden)
    else
      match op
      case Update(_, now, expected, text, _) =>
        if expiresAt <= now then (h, Expired)
        else if expected != |h.texts| then (h, Conflict(|h.texts|))
        else if |h.texts| >= maxVersions then (h, Full)
        else (History(h.texts + [text], h.keys + 1), Saved(|h.texts| + 1))
      case Restore(_, version, _) =>
        if |h.texts| >= maxVersions then (h, Full)
        else if !(1 <= version <= |h.texts|) then (h, VersionMissing)
        else (History(h.texts + [h.texts[version - 1]], h.keys + 1), Saved(|h.texts| + 1))
      case Rotate(_, _) => (h.(keys := h.keys + 1), Rotated(h.keys + 1))
  }

  ghost predicate KeysUpTo(keys: map<nat, Sealed>, n: nat) {
    forall k :: k in keys <==> 1 <= k <= n
  }

  ghost predicate Opens(v: Vault, keys: map<nat, Sealed>, keyVersion: nat, content: Sealed, text: Bytes) {
    && keyVersion in keys
    && DekOf(v, keys, keyVersion).Some?
    && v.Decrypt(content, DekOf(v, keys, keyVersion).value) == Some(text)
  }

  /** Version i is stored, and opens under its recorded key to the i-th text. */
  ghost predicate Stores(v: Vault, keys: map<nat, Sealed>, versions: map<nat, VersionRow>, texts: seq<Bytes>, i: nat) {
    && i in versions && 1 <= i <= |texts|
    && versions[i].TextRow? && versions[i].keyVersion.Some? && versions[i].size == |texts[i - 1]|
    && Opens(v, keys, versions[i].keyVersion.value, versions[i].content, texts[i - 1])
  }

  ghost predicate StoresAll(v: Vault, keys: map<nat, Sealed>, versions: map<nat, VersionRow>, texts: seq<Bytes>) {
    && (forall i :: i in versions <==> 1 <= i <= |texts|)
    && (forall i :: 1 <= i <= |texts| ==> Stores(v, keys, versions, texts, i))
  }

  /** The tables hold exactly this history: versions 1..current, each opening to its text under its recorded key, and
      the newest key opening the secret's content. */
  ghost predicate Holds(v: Vault, t: Tables, expiresAt: int, h: History) {
    && t.secret.Some? && t.secret.value.isText && t.secret.value.expiresAt == expiresAt
    && 1 <= |h.texts| == t.secret.value.currentVersion <= v.maxVersions
    && h.keys >= 1 && KeysUpTo(t.keys, h.keys)
    && StoresAll(v, t.keys, t.versions, h.texts)
    && Stores(v, t.keys, t.versions, h.texts, |h.texts|)
    && t.secret.value.content == Some(t.versions[|h.texts|].content)
    && t.versions[|h.texts|].keyVersion == Some(h.keys)
  }

  // ---------- Proofs ----------

  lemma LatestIs(keys: map<nat, Sealed>, n: nat)
    requires KeysUpTo(keys, n) && n >= 1
    ensures LatestKey(keys) == n && keys.Keys != {}
  {
    assert n in keys;
  }

  lemma FreshKeyOpens(v: Vault, keys: map<nat, Sealed>, n: nat, text: Bytes, d: Draw)
    requires v.aead.Correct()
    ensures Opens(v, keys[n := v.Wrap(d)], n, v.Encrypt(text, d), text)
  {
  }

  /** A new key, and a new row for version n, leave every other stored version readable. */
  lemma StoredVersionStays(v: Vault, keys: map<nat, Sealed>, k: nat, wrapped: Sealed, versions: map<nat, VersionRow>,
                           n: nat, row: VersionRow, texts: seq<Bytes>, texts': seq<Bytes>, i: nat)
    requires KeysUpTo(keys, k) && Stores(v, keys, versions, texts, i) && i != n && texts <= texts'
    ensures Stores(v, keys[k + 1 := wrapped], versions[n := row], texts', i)
  {
    assert versions[i].keyVersion.value != k + 1;
  }

  lemma AppendKeeps(v: Vault, t: Tables, expiresAt: int, h: History, text: Bytes, d: Draw)
    requires v.aead.Correct() && Holds(v, t, expiresAt, h) && |h.texts| < v.maxVersions
    ensures
      var (t', o) := WithTextVersion(v, t, |h.texts| + 1, text, d);
      o == Saved(|h.texts| + 1) && Holds(v, t', expiresAt, History(h.texts + [text], h.keys + 1))
  {
    hide LatestKey, Stores, Opens;
    LatestIs(t.keys, h.keys);
    var n := |h.texts| + 1;
    var t' := WithTextVersion(v, t, n, text, d).0;
    var texts' := h.texts + [text];
    forall i | 1 <= i <= n ensures Stores(v, t'.keys, t'.versions, texts', i) {
      if i < n {
        StoredVersionStays(v, t.keys, h.keys, v.Wrap(d), t.versions, n, t'.versions[n], h.texts, texts', i);
      } else {
        FreshKeyOpens(v, t.keys, h.keys + 1, text, d);
        NewVersionStored(v, t', texts', n);
      }
    }
  }

  lemma NewVersionStored(v: Vault, t: Tables, texts: seq<Bytes>, n: nat)
    requires 1 <= n <= |texts| && n in t.versions && t.versions[n].TextRow?
    requires t.versions[n].keyVersion.Some? && t.versions[n].size == |texts[n - 1]|
    requires Opens(v, t.keys, t.versions[n].keyVersion.value, t.versions[n].content, texts[n - 1])
    ensures Stores(v, t.keys, t.versions, texts, n)
  {
  }

  lemma UpdateRefines(v: Vault, t: Tables, expiresAt: int, h: History, op: Op)
    requires op.Update? && v.aead.Correct() && Holds(v, t, expiresAt, h)
    ensures
      var (t', o), (h', o') := UpdateSecret(v, t, op), Plain(v.maxVersions, expiresAt, h, op);
      o == o' && Holds(v, t', expiresAt, h')
  {
    hide WithTextVersion, StoresAll;
    if |h.texts| < v.maxVersions {
      AppendKeeps(v, t, expiresAt, h, op.text, op.draw);
    }
  }

  lemma RestoreRefines(v: Vault, t: Tables, expiresAt: int, h: History, op: Op)
    requires op.Restore? && v.aead.Correct() && Holds(v, t, expiresAt, h)
    ensures
      var (t', o), (h', o') := RestoreVersion(v, t, op), Plain(v.maxVersions, expiresAt, h, op);
      o == o' && Holds(v, t', expiresAt, h')
  {
    hide WithTextVersion;
    if 1 <= op.version <= |h.texts| && |h.texts| < v.maxVersions {
      assert Stores(v, t.keys, t.versions, h.texts, op.version);
      AppendKeeps(v, t, expiresAt, h, h.texts[op.version - 1], op.draw);
    }
  }

  lemma RotateRefines(v: Vault, t: Tables, expiresAt: int, h: History, op: Op)
    requires op.Rotate? && v.aead.Correct() && Holds(v, t, expiresAt, h)
    ensures
      var (t', o), (h', o') := RotateKey(v, t, op), Plain(v.maxVersions, expiresAt, h, op);
      o == o' && Holds(v, t', expiresAt, h')
  {
    hide LatestKey;
    if op.owns {
      LatestIs(t.keys, h.keys);
      var n := |h.texts|;
      var t' := RotateKey(v, t, op).0;
      FreshKeyOpens(v, t.keys, h.keys + 1, h.texts[n - 1], op.draw);
      forall i | 1 <= i <= n ensures Stores(v, t'.keys, t'.versions, h.texts, i) {
        if i < n {
          assert Stores(v, t.keys, t.versions, h.texts, i);
          StoredVersionStays(v, t.keys, h.keys, v.Wrap(op.draw), t.versions, n, t'.versions[n], h.texts, h.texts, i);
        }
      }
    }
  }

  /** Every operation on a server-encrypted text secret does to the encrypted tables what it does to the plain
      history, and answers the same. */
  lemma Refines(v: Vault, t: Tables, expiresAt: int, h: History, op: Op)
    requires v.aead.Correct() && Holds(v, t, expiresAt, h)
    ensures
      var (t', o), (h', o') := Apply(v, t, op), Plain(v.maxVersions, expiresAt, h, op);
      o == o' && Holds(v, t', expiresAt, h')
  {
    hide Holds, UpdateSecret, RestoreVersion, RotateKey, Plain;
    match op
    case Update(_, _, _, _, _) => UpdateRefines(v, t, expiresAt, h, op);
    case Restore(_, _, _) => RestoreRefines(v, t, expiresAt, h, op);
    case Rotate(_, _) => RotateRefines(v, t, expiresAt, h, op);
  }

  function ApplyAll(v: Vault, t: Tables, ops: seq<Op>): (Tables, seq<Outcome>)
    decreases |ops|
  {
    if ops == [] then (t, [])
    else
      var (t', o) := Apply(v, t, ops[0]);
      var (end, rest) := ApplyAll(v, t', ops[1..]);
      (end, [o] + rest)
  }

  function PlainAll(maxVersions: nat, expiresAt: int, h: History, ops: seq<Op>): (History, seq<Outcome>)
    decreases |ops|
  {
    if ops == [] then (h, [])
    else
      var (h', o) := Plain(maxVersions, expiresAt, h, ops[0]);
      var (end, rest) := PlainAll(maxVersions, expiresAt, h', ops[1..]);
      (end, [o] + rest)
  }

  lemma {:induction false} RunRefines(v: Vault, t: Tables, expiresAt: int, h: History, ops: seq<Op>)
    requires v.aead.Correct() && Holds(v, t, expiresAt, h)
    ensures
      var (t', os), (h', os') := ApplyAll(v, t, ops), PlainAll(v.maxVersions, expiresAt, h, ops);
      os == os' && Holds(v, t', expiresAt, h')
    decreases |ops|
  {
    hide Holds, Apply, Plain;
    if ops != [] {
      Refines(v, t, expiresAt, h, ops[0]);
      RunRefines(v, Apply(v, t, ops[0]).0, expiresAt, Plain(v.maxVersions, expiresAt, h, ops[0]).0, ops[1..]);
    }
  }

  lemma CreatedHolds(v: Vault, text: Bytes, expiresAt: int, d: Draw)
    requires v.aead.Correct() && v.maxVersions >= 1
    ensures Holds(v, Created(v, text, expiresAt, d), expiresAt, History([text], 1))
  {
    var t := Created(v, text, expiresAt, d);
    FreshKeyOpens(v, map[], 1, text, d);
    assert map[][1 := v.Wrap(d)] == t.keys;
    assert Stores(v, t.keys, t.versions, [text], 1);
  }

  /** A retrieval returns the newest text. */
  lemma RetrievesNewest(v: Vault, t: Tables, expiresAt: int, h: History)
    requires Holds(v, t, expiresAt, h)
    ensures Retrieve(v, t) == Text(h.texts[|h.texts| - 1], false)
  {
    LatestIs(t.keys, h.keys);
  }

  /** Plain histories only grow, one text at a time, up to the limit. */
  lemma {:induction false} HistoryGrows(maxVersions: nat, expiresAt: int, h: History, ops: seq<Op>)
    ensures
      var (h', os) := PlainAll(maxVersions, expiresAt, h, ops);
      h.texts <= h'.texts && h.keys <= h'.keys && (|h.texts| <= maxVersions ==> |h'.texts| <= maxVersions)
    decreases |ops|
  {
    if ops != [] {
      HistoryGrows(maxVersions, expiresAt, Plain(maxVersions, expiresAt, h, ops[0]).0, ops[1..]);
    }
  }

  /** From creation on, whatever the operations: what is read is the newest text, every earlier version still opens to
      the text it was saved with, and the first text is never lost. */
  lemma CreatedThenRun(v: Vault, text: Bytes, expiresAt: int, d: Draw, ops: seq<Op>)
    requires v.aead.Correct() && v.maxVersions >= 1
    ensures
      var t := ApplyAll(v, Created(v, text, expiresAt, d), ops).0;
      var h := PlainAll(v.maxVersions, expiresAt, History([text], 1), ops).0;
      && [text] <= h.texts && |h.texts| <= v.maxVersions
      && Retrieve(v, t) == Text(h.texts[|h.texts| - 1], false)
      && (forall i :: i in t.versions <==> 1 <= i <= |h.texts|)
      && (forall i :: 1 <= i <= |h.texts| ==> Stores(v, t.keys, t.versions, h.texts, i))
  {
    CreatedHolds(v, text, expiresAt, d);
    RunRefines(v, Created(v, text, expiresAt, d), expiresAt, History([text], 1), ops);
    HistoryGrows(v.maxVersions, expiresAt, History([text], 1), ops);
    RetrievesNewest(v, ApplyAll(v, Created(v, text, expiresAt, d), ops).0, expiresAt,
                    PlainAll(v.maxVersions, expiresAt, History([text], 1), ops).0);
  }

  predicate NotCurrent(t: Tables, i: nat) {
    t.secret.Some? ==> i != t.secret.value.currentVersion
  }

  /** Whatever is in the tables, well-formed or not, no operation overwrites or drops a key, or a version other than the
      current text in a rotation, and that keeps its size. */
  lemma NothingIsOverwritten(v: Vault, t: Tables, op: Op)
    ensures
      var t' := Apply(v, t, op).0;
      && (forall k :: k in t.keys ==> k in t'.keys && t'.keys[k] == t.keys[k])
      && (forall i :: i in t.versions ==> i in t'.versions && t'.versions[i].size == t.versions[i].size)
      && (forall i :: i in t.versions && (t.versions[i].TextRow? && op.Rotate? ==> NotCurrent(t, i)) ==>
            t'.versions[i] == t.versions[i])
  {
    assert LatestKey(t.keys) + 1 !in t.keys;
  }

  // ---------- Secrets the server cannot rewrite ----------

  /** No key was ever stored for it. */
  ghost predicate ClientEncrypted(t: Tables) {
    && t.secret.Some? && t.keys == map[]
    && (forall i :: i in t.versions ==> t.versions[i].keyVersion.None?)
  }

  ghost predicate FileSecret(t: Tables) {
    && t.secret.Some? && !t.secret.value.isText && t.secret.value.content.None?
    && (forall i :: i in t.versions ==> t.versions[i].FileRow?)
  }

  /** Client-encrypted and file secrets are beyond all three operations: every one is refused and changes nothing. */
  lemma {:induction false} Untouchable(v: Vault, t: Tables, ops: seq<Op>)
    requires ClientEncrypted(t) || FileSecret(t)
    ensures ApplyAll(v, t, ops).0 == t
    ensures forall o :: o in ApplyAll(v, t, ops).1 ==> !o.Saved? && !o.Rotated?
  {
    if ops != [] {
      Untouchable(v, t, ops[1..]);
    }
  }

  /** What a secret without a server key for its text is answered, for each operation of its owner: an update sees the
      expiry first, then the kind of secret, then the version, the limit and the missing key; a restoration finds every
      stored version unfit; a rotation has no key, or no content, to work on. */
  ghost function RefusalOf(v: Vault, t: Tables, op: Op): Outcome
    requires t.secret.Some?
  {
    var row := t.secret.value;
    match op
    case Update(_, now, expected, _, _) =>
      if row.expiresAt <= now then Expired
      else if FileSecret(t) || !row.isText then NotText
      else if expected != row.currentVersion then Conflict(row.currentVersion)
      else if v.maxVersions <= row.currentVersion then Full
      else NoServerKey
    case Restore(_, version, _) =>
      if v.maxVersions <= row.currentVersion then Full
      else if version in t.versions.Keys then NotRestorable
      else VersionMissing
    case Rotate(_, _) =>
      if t.keys == map[] then KeyMissing
      else if DekOf(v, t.keys, LatestKey(t.keys)).Some? then NullContent
      else CryptoFailed
  }

  /** Every refusal outside the server-encrypted texts: an absent secret is not found, a stranger is turned away, and
      the owner of a client-encrypted or file secret gets the one refusal that its kind and state call for. Nothing is
      changed. */
  lemma RefusedExactly(v: Vault, t: Tables, op: Op)
    requires t.secret.Some? && op.owns ==> ClientEncrypted(t) || FileSecret(t)
    ensures
      Apply(v, t, op)
      == (t, if t.secret.None? then NotFound else if !op.owns then Forbidden else RefusalOf(v, t, op))
  {
  }

  /** A client-encrypted secret always reads back as the ciphertext it was created with, in its first and only
      version. */
  lemma ClientTextComesBack(v: Vault, sealed: Sealed, expiresAt: int, size: nat, ops: seq<Op>)
    ensures
      var t := ApplyAll(v, CreatedClientEncrypted(sealed, expiresAt, size), ops).0;
      && Retrieve(v, t) == Text(sealed.cipher, true)
      && t.secret.Some? && t.secret.value.currentVersion == 1
      && t.versions.Keys == {1} && t.versions[1].TextRow? && t.versions[1].content == sealed
  {
    Untouchable(v, CreatedClientEncrypted(sealed, expiresAt, size), ops);
  }

  /** What has no text to be read is told apart: an absent secret, and a file. */
  lemma NoTextToRead(v: Vault, t: Tables)
    ensures t.secret.None? <==> Retrieve(v, t) == Unreadable(NotFound)
    ensures FileSecret(t) ==> Retrieve(v, t) == Unreadable(NotText)
  {
  }

  // ---------- The tables ----------

  method Zero(buffer: array<byte>)
    modifies buffer
    ensures forall i :: 0 <= i < buffer.Length ==> buffer[i] == 0
  {
    for i := 0 to buffer.Length
      invariant forall j :: 0 <= j < i ==> buffer[j] == 0
    {
      buffer[i] := 0;
    }
  }

  /** The rows of one secret, changed in transactions under the lock of its secrets row. */
  class SecretStore {
    const vault: Vault
    var secret: Option<SecretRow>
    var keys: map<nat, Sealed>
    var versions: map<nat, VersionRow>

    function Contents(): Tables
      reads this
    {
      Tables(secret, keys, versions)
    }

    constructor (vault: Vault, text: Bytes, expiresAt: int, d: Draw)
      ensures this.vault == vault && Contents() == Created(vault, text, expiresAt, d)
    {
      this.vault := vault;
      var content := vault.Encrypt(text, d);
      secret := Some(SecretRow(true, Some(content), 1, expiresAt));
      keys := map[1 := vault.Wrap(d)];
      versions := map[1 := TextRow(content, Some(1), |text|)];
    }

    method CreateVersionKey(d: Draw) returns (keyVersion: nat)
      modifies this`keys
      ensures keyVersion == LatestKey(old(keys)) + 1 && keys == old(keys)[keyVersion := vault.Wrap(d)]
    {
      keyVersion := LatestKey(keys) + 1;
      keys := keys[keyVersion := vault.Wrap(d)];
    }

    method InsertTextVersion(version: nat, text: Bytes, d: Draw) returns (o: Outcome)
      requires secret.Some?
      modifies this
      ensures (Contents(), o) == WithTextVersion(vault, old(Contents()), version, text, d)
    {
      var before := keys;
      var key := CreateVersionKey(d);
      var content := vault.Encrypt(text, d);
      if version in versions {
        keys := before;
        return DuplicateVersion;
      }
      versions := versions[version := TextRow(content, Some(key), |text|)];
      secret := Some(secret.value.(content := Some(content), currentVersion := version));
      return Saved(version);
    }

    method Update(owns: bool, now: int, expected: int, text: Bytes, d: Draw) returns (o: Outcome)
      modifies this
      ensures (Contents(), o) == Apply(vault, old(Contents()), Op.Update(owns, now, expected, text, d))
    {
      if secret.None? {
        return NotFound;
      }
      var row := secret.value;
      if !owns {
        return Forbidden;
      }
      if row.expiresAt <= now {
        return Expired;
      }
      if !row.isText {
        return NotText;
      }
      if row.currentVersion != expected {
        return Conflict(row.currentVersion);
      }
      if row.currentVersion >= vault.maxVersions {
        return Full;
      }
      if row.currentVersion !in versions || versions[row.currentVersion].keyVersion.None? {
        return NoServerKey;
      }
      o := InsertTextVersion(row.currentVersion + 1, text, d);
    }

    method Restore(owns: bool, version: int, d: Draw) returns (o: Outcome)
      modifies this
      ensures (Contents(), o) == Apply(vault, old(Contents()), Op.Restore(owns, version, d))
    {
      if secret.None? {
        return NotFound;
      }
      if !owns {
        return Forbidden;
      }
      if secret.value.currentVersion >= vault.maxVersions {
        return Full;
      }
      if version < 0 || version !in versions {
        return VersionMissing;
      }
      var row := versions[version];
      if row.FileRow? || row.keyVersion.None? {
        return NotRestorable;
      }
      if row.keyVersion.value !in keys {
        return KeyMissing;
      }
      var dek := DekOf(vault, keys, row.keyVersion.value);
      if dek.None? {
        return CryptoFailed;
      }
      var text := vault.Decrypt(row.content, dek.value);
      if text.None? {
        return CryptoFailed;
      }
      o := InsertTextVersion(secret.value.currentVersion + 1, text.value, d);
    }

    /** The plain text is held in a buffer that is zeroed before the new ciphertext is written. */
    method Rotate(owns: bool, d: Draw) returns (o: Outcome)
      modifies this
      ensures (Contents(), o) == Apply(vault, old(Contents()), Op.Rotate(owns, d))
    {
      if secret.None? {
        return NotFound;
      }
      if !owns {
        return Forbidden;
      }
      if keys.Keys == {} {
        return KeyMissing;
      }
      var row, before := secret.value, keys;
      var dek := DekOf(vault, keys, LatestKey(keys));
      if dek.None? {
        return CryptoFailed;
      }
      if row.content.None? {
        return NullContent;
      }
      var text := vault.Decrypt(row.content.value, dek.value);
      if text.None? {
        return CryptoFailed;
      }
      var buffer := new byte[|text.value|](i requires 0 <= i < |text.value| => text.value[i]);
      assert buffer[..] == text.value;
      var key := CreateVersionKey(d);
      var content := vault.Encrypt(buffer[..], d);
      Zero(buffer);
      if row.currentVersion in versions && versions[row.currentVersion].FileRow? {
        keys := before;
        return NullContent;
      }
      secret := Some(row.(content := Some(content)));
      if row.currentVersion in versions {
        var current := versions[row.currentVersion];
        versions := versions[row.currentVersion := current.(content := content, keyVersion := Some(key))];
      }
      return Rotated(key);
    }
  }
}
