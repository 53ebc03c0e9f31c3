/**
 Re-encryption of stored configuration: `recryptDatabase` of flow/cmd/api.go over the
 keys of flow/shared/crypto.go.
 */
module Recrypt {
  import opened Options

  type Bytes = seq<int>

  datatype EncKey = EncKey(id: string, value: string)

  /** XChaCha20-Poly1305 and base64, as far as their callers know them. */
  datatype Cipher = Cipher(decodeKey: string -> Option<Bytes>,
                           seal: (Bytes, Bytes, Bytes) -> Bytes,
                           open: (Bytes, Bytes, Bytes) -> Option<Bytes>)
  {
    /** Opening undoes sealing under the same key and nonce. */
    ghost predicate Sound() {
      forall key: Bytes, nonce: Bytes, plain: Bytes :: open(key, nonce, seal(key, nonce, plain)) == Some(plain)
    }
  }

  const NONCE_SIZE := 24

  // ---- keys ----

  const NoKey := EncKey("", "")

  /** The first key with this id; the empty id stands for no encryption. */
  function Get(keys: seq<EncKey>, id: string): Option<EncKey>
    decreases |keys|
  {
    if id == "" then Some(NoKey)
    else if keys == [] then None
    else if keys[0].id == id then Some(keys[0])
    else Get(keys[1..], id)
  }

  lemma {:induction false} GetFinds(keys: seq<EncKey>, id: string)
    ensures Get(keys, id).Some? <==> id == "" || exists i | 0 <= i < |keys| :: keys[i].id == id
    ensures Get(keys, id).Some? ==> Get(keys, id).value.id == id
    ensures id == "" ==> Get(keys, id) == Some(NoKey)
    ensures forall i | IsFirst(keys, i, id) && id != "" :: Get(keys, id) == Some(keys[i])
    decreases |keys|
  {
    if id != "" && keys != [] && keys[0].id != id {
      GetFinds(keys[1..], id);
      assert forall i | 0 < i < |keys| :: keys[i] == keys[1..][i - 1];
      assert forall i | 0 <= i < |keys[1..]| :: keys[1..][i] == keys[i + 1];
      forall i | IsFirst(keys, i, id)
        ensures Get(keys, id) == Some(keys[i])
      {
        assert IsFirst(keys[1..], i - 1, id);
      }
    }
  }

  ghost predicate IsFirst(keys: seq<EncKey>, i: int, id: string) {
    0 <= i < |keys| && keys[i].id == id && forall j | 0 <= j < i :: keys[j].id != id
  }

  function KeyBytes(c: Cipher, key: EncKey): Option<Bytes> {
    var decoded := (c.decodeKey)(key.value);
    if decoded.Some? && |decoded.value| == 32 then decoded else None
  }

  function Decrypt(c: Cipher, key: EncKey, text: Bytes): Option<Bytes> {
    if key.id == "" then Some(text)
    else if KeyBytes(c, key).None? || |text| < NONCE_SIZE then None
    else (c.open)(KeyBytes(c, key).value, text[..NONCE_SIZE], text[NONCE_SIZE..])
  }

  /** `nonce` is None when the random source fails. */
  function Encrypt(c: Cipher, key: EncKey, plain: Bytes, nonce: Option<Bytes>): Option<Bytes>
    requires nonce.Some? ==> |nonce.value| == NONCE_SIZE
  {
    if key.id == "" then Some(plain)
    else if KeyBytes(c, key).None? || nonce.None? then None
    else Some(nonce.value + (c.seal)(KeyBytes(c, key).value, nonce.value, plain))
  }

  /** Whatever Encrypt returns, Decrypt under the same key takes back. */
  lemma DecryptUndoesEncrypt(c: Cipher, key: EncKey, plain: Bytes, nonce: Option<Bytes>)
    requires c.Sound() && (nonce.Some? ==> |nonce.value| == NONCE_SIZE)
    requires Encrypt(c, key, plain, nonce).Some?
    ensures Decrypt(c, key, Encrypt(c, key, plain, nonce).value) == Some(plain)
  {
    if key.id != "" {
      var sealed := (c.seal)(KeyBytes(c, key).value, nonce.value, plain);
      assert (nonce.value + sealed)[..NONCE_SIZE] == nonce.value;
      assert (nonce.value + sealed)[NONCE_SIZE..] == sealed;
    }
  }

  /** A ciphertext begins with the nonce it was sealed under, and the empty id leaves the text as it is. */
  lemma EncryptMeans(c: Cipher, key: EncKey, plain: Bytes, nonce: Option<Bytes>)
    requires nonce.Some? ==> |nonce.value| == NONCE_SIZE
    ensures var text := Encrypt(c, key, plain, nonce);
      if key.id == "" then text == Some(plain)
      else
        && (text.None? <==>
              (c.decodeKey)(key.value).None? || |(c.decodeKey)(key.value).value| != 32 || nonce.None?)
        && (text.Some? ==>
              && nonce.value <= text.value
              && text.value[NONCE_SIZE..] == (c.seal)((c.decodeKey)(key.value).value, nonce.value, plain))
  {
    if Encrypt(c, key, plain, nonce).Some? && key.id != "" {
      var sealed := (c.seal)(KeyBytes(c, key).value, nonce.value, plain);
      assert (nonce.value + sealed)[NONCE_SIZE..] == sealed;
    }
  }

  /** Decryption fails on a key that is not 32 bytes, a text too short for a nonce, and a seal that does not open. */
  lemma DecryptMeans(c: Cipher, key: EncKey, text: Bytes)
    ensures var keyBytes := (c.decodeKey)(key.value);
      if key.id == "" then Decrypt(c, key, text) == Some(text)
      else if keyBytes.None? || |keyBytes.value| != 32 || |text| < NONCE_SIZE then Decrypt(c, key, text).None?
      else Decrypt(c, key, text) == (c.open)(keyBytes.value, text[..NONCE_SIZE], text[NONCE_SIZE..])
  {
  }

  // ---- rows ----

  datatype Row = Row(options: Bytes, keyId: string)

  datatype RowId = RowId(id: int)

  type Table = map<RowId, Row>

  /** What a reader of the row gets. */
  function Plaintext(c: Cipher, keys: seq<EncKey>, row: Row): Option<Bytes> {
    var key := Get(keys, row.keyId);
    if key.None? then None else Decrypt(c, key.value, row.options)
  }

  /** What goes wrong while the transaction runs. */
  datatype Faults = Faults(noTransaction: bool, noQuery: bool, unreadable: set<RowId>, nonces: map<RowId, Bytes>,
                           iterationFails: bool, failingUpdates: set<RowId>, commits: bool)
  {
    ghost predicate Valid() {
      forall id <- nonces :: |nonces[id]| == NONCE_SIZE
    }

    function Nonce(id: RowId): Option<Bytes> {
      if id in nonces then Some(nonces[id]) else None
    }
  }

  /** The new contents of a row the loop gets through, or why not. */
  function NewOptions(c: Cipher, keys: seq<EncKey>, key: EncKey, f: Faults, id: RowId, row: Row): Option<Bytes>
    requires f.Valid()
  {
    if id in f.unreadable then None
    else
      var plain := Plaintext(c, keys, row);
      if plain.None? then None else Encrypt(c, key, plain.value, f.Nonce(id))
  }

  /** The row is under another key id and gets through. */
  predicate Renewable(c: Cipher, keys: seq<EncKey>, key: EncKey, newKeyId: string, f: Faults, id: RowId, row: Row)
    requires f.Valid()
  {
    row.keyId != newKeyId && NewOptions(c, keys, key, f, id, row).Some?
  }

  function NewRow(c: Cipher, keys: seq<EncKey>, key: EncKey, newKeyId: string, f: Faults, id: RowId, row: Row): Row
    requires f.Valid()
  {
    if row.keyId == newKeyId then row
    else
      var options := NewOptions(c, keys, key, f, id, row);
      if options.None? then row else Row(options.value, newKeyId)
  }

  /** The table a committed run leaves. */
  function Recrypted(c: Cipher, keys: seq<EncKey>, key: EncKey, newKeyId: string, f: Faults, rows: Table): Table
    requires f.Valid()
  {
    map id | id in rows :: NewRow(c, keys, key, newKeyId, f, id, rows[id])
  }

  /** The loop over the selected rows, in whatever order the query yields them. */
  method CollectTodo(c: Cipher, keys: seq<EncKey>, key: EncKey, newKeyId: string, f: Faults, rows: Table)
    returns (todo: map<RowId, Bytes>)
    requires f.Valid()
    ensures todo.Keys <= rows.Keys
    ensures forall id <- rows :: id in todo <==> Renewable(c, keys, key, newKeyId, f, id, rows[id])
    ensures forall id <- todo :: NewOptions(c, keys, key, f, id, rows[id]) == Some(todo[id])
  {
    todo := map[];
    var left := set id | id in rows && rows[id].keyId != newKeyId;
    ghost var selected := left;
    while left != {}
      invariant left <= selected && todo.Keys <= selected - left
      invariant forall id <- selected - left :: id in todo <==> NewOptions(c, keys, key, f, id, rows[id]).Some?
      invariant forall id <- todo :: NewOptions(c, keys, key, f, id, rows[id]) == Some(todo[id])
      decreases |left|
    {
      var id :| id in left;
      left := left - {id};
      if id in f.unreadable {
        continue;
      }
      var oldKey := Get(keys, rows[id].keyId);
      if oldKey.None? {
        continue;
      }
      var plain := Decrypt(c, oldKey.value, rows[id].options);
      if plain.None? {
        continue;
      }
      var options := Encrypt(c, key, plain.value, f.Nonce(id));
      if options.None? {
        continue;
      }
      todo := todo[id := options.value];
    }
  }

  /** The updates inside the transaction; the first failing one ends it. */
  method WriteTodo(rows: Table, todo: map<RowId, Bytes>, newKeyId: string, f: Faults) returns (ok: bool, written: Table)
    requires todo.Keys <= rows.Keys
    ensures ok <==> todo.Keys !! f.failingUpdates
    ensures ok ==> written.Keys == rows.Keys
    ensures ok ==> forall id <- rows :: written[id] == if id in todo then Row(todo[id], newKeyId) else rows[id]
  {
    written := rows;
    var left := todo.Keys;
    while left != {}
      invariant left <= todo.Keys && written.Keys == rows.Keys
      invariant (todo.Keys - left) !! f.failingUpdates
      invariant forall id <- rows ::
        written[id] == if id in todo.Keys - left then Row(todo[id], newKeyId) else rows[id]
      decreases |left|
    {
      var id :| id in left;
      if id in f.failingUpdates {
        return false, rows;
      }
      written, left := written[id := Row(todo[id], newKeyId)], left - {id};
    }
    ok := true;
  }

  class Database {
    var rows: Table

    constructor (rows: Table)
      ensures this.rows == rows
    {
      this.rows := rows;
    }

    /**
     The table stays as it is when the key is missing, a statement fails or the commit
     fails; otherwise every row that can be is renewed. Either way every row decrypts
     under its recorded key id to what it did before.
     */
    method RecryptDatabase(c: Cipher, keys: seq<EncKey>, newKeyId: string, f: Faults) returns (committed: bool)
      requires f.Valid()
      modifies this
      ensures committed <==>
        && Get(keys, newKeyId).Some?
        && !f.noTransaction && !f.noQuery && !f.iterationFails && f.commits
        && forall id <- old(rows) | id in f.failingUpdates ::
             !Renewable(c, keys, Get(keys, newKeyId).value, newKeyId, f, id, old(rows)[id])
      ensures !committed ==> rows == old(rows)
      ensures committed ==> rows == Recrypted(c, keys, Get(keys, newKeyId).value, newKeyId, f, old(rows))
      ensures rows.Keys == old(rows).Keys
      ensures c.Sound() ==>
        forall id <- rows :: Plaintext(c, keys, rows[id]) == Plaintext(c, keys, old(rows)[id])
    {
      var key := Get(keys, newKeyId);
      if key.None? || f.noTransaction || f.noQuery {
        return false;
      }
      var todo := CollectTodo(c, keys, key.value, newKeyId, f, rows);
      if f.iterationFails {
        return false;
      }
      var ok, written := WriteTodo(rows, todo, newKeyId, f);
      if !ok || !f.commits {
        return false;
      }
      assert written == Recrypted(c, keys, key.value, newKeyId, f, rows);
      if c.Sound() {
        TableKeepsPlaintexts(c, keys, key.value, newKeyId, f, rows);
      }
      rows := written;
      return true;
    }
  }

  // ---- what re-encryption promises ----

  /** A renewed row reads as before; a row that could not be renewed is untouched. */
  lemma RowKeepsPlaintext(c: Cipher, keys: seq<EncKey>, key: EncKey, newKeyId: string, f: Faults, id: RowId, row: Row)
    requires c.Sound() && f.Valid() && Get(keys, newKeyId) == Some(key)
    ensures var row' := NewRow(c, keys, key, newKeyId, f, id, row);
      && Plaintext(c, keys, row') == Plaintext(c, keys, row)
      && (row' == row || (row'.keyId == newKeyId && Plaintext(c, keys, row).Some?))
  {
    var options := NewOptions(c, keys, key, f, id, row);
    if row.keyId != newKeyId && options.Some? {
      DecryptUndoesEncrypt(c, key, Plaintext(c, keys, row).value, f.Nonce(id));
    }
  }

  /**
   After a commit a row keeps an old key id exactly when it could not be read, its old key
   is missing, or decryption or encryption failed.
   */
  lemma OldKeyKeptExactly(c: Cipher, keys: seq<EncKey>, key: EncKey, newKeyId: string, f: Faults, id: RowId, row: Row)
    requires f.Valid() && Get(keys, newKeyId) == Some(key)
    ensures NewRow(c, keys, key, newKeyId, f, id, row).keyId != newKeyId <==>
      row.keyId != newKeyId &&
      (|| id in f.unreadable
       || Get(keys, row.keyId).None?
       || Decrypt(c, Get(keys, row.keyId).value, row.options).None?
       || (newKeyId != "" && (KeyBytes(c, key).None? || id !in f.nonces)))
  {
    GetFinds(keys, newKeyId);
  }

  /** A commit changes what no row decrypts to under its recorded key id. */
  lemma TableKeepsPlaintexts(c: Cipher, keys: seq<EncKey>, key: EncKey, newKeyId: string, f: Faults, rows: Table)
    requires c.Sound() && f.Valid() && Get(keys, newKeyId) == Some(key)
    ensures var rows' := Recrypted(c, keys, key, newKeyId, f, rows);
      rows'.Keys == rows.Keys && forall id <- rows :: Plaintext(c, keys, rows'[id]) == Plaintext(c, keys, rows[id])
  {
    forall id <- rows
      ensures Plaintext(c, keys, NewRow(c, keys, key, newKeyId, f, id, rows[id])) == Plaintext(c, keys, rows[id])
    {
      RowKeepsPlaintext(c, keys, key, newKeyId, f, id, rows[id]);
    }
  }
}
