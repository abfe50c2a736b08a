/**
 * The finalized-payload-hash record of cosmos/x/evm/store/forkchoice.go: one
 * fixed key of a key-value store holds the hash. Reading converts the stored
 * bytes to a 32-byte array, which panics when the key is missing (Go's `Get`
 * gives nil) or holds fewer than 32 bytes, and keeps the first 32 otherwise.
 */
module ForkchoiceStore {
  import opened GoTypes

  /** The bytes of the string "finalizedPayloadBlockHash". */
  const FinalizedKey: Bytes := AsciiBytes("finalizedPayloadBlockHash")

  /** A key-value store (`store.KVStore`): `Get` gives nil for a missing key, `Set` replaces a key's value. */
  class KVStore {
    var data: map<Bytes, Bytes>

    constructor (data: map<Bytes, Bytes>)
      ensures this.data == data
    {
      this.data := data;
    }

    method Get(key: Bytes) returns (value: Slice)
      ensures key in data <==> value.Some?
      ensures key in data ==> value == Some(data[key])
    {
      if key in data {
        return Some(data[key]);
      }
      return None;
    }

    method Set(key: Bytes, value: Bytes)
      modifies this
      ensures data == old(data)[key := value]
    {
      data := data[key := value];
    }
  }

  /** What reading the record gives for store contents `data`. */
  function StoredHash(data: map<Bytes, Bytes>): (r: Outcome<Hash32>)
    ensures r.Returned? <==> FinalizedKey in data && |data[FinalizedKey]| >= 32
    ensures r.Returned? ==> r.value == data[FinalizedKey][..32]
  {
    if FinalizedKey in data && |data[FinalizedKey]| >= 32 then
      var hash: Hash32 := data[FinalizedKey][..32];
      Returned(hash)
    else Panicked("slice shorter than the array it is converted to")
  }

  /** Reading back a hash just set gives that hash. */
  lemma SetThenGet(data: map<Bytes, Bytes>, hash: Hash32)
    ensures StoredHash(data[FinalizedKey := hash]) == Returned(hash)
  {
    assert hash[..32] == hash;
  }

  /** Setting the same hash twice leaves the store as setting it once; only the fixed key changes. */
  lemma SetIsIdempotent(data: map<Bytes, Bytes>, hash: Hash32)
    ensures data[FinalizedKey := hash][FinalizedKey := hash] == data[FinalizedKey := hash]
    ensures forall k :: k in data && k != FinalizedKey ==> k in data[FinalizedKey := hash] && data[FinalizedKey := hash][k] == data[k]
  {
  }

  /** `Forkchoice`: a view on one key of the store. */
  class Forkchoice {
    const store: KVStore

    /** `NewForkchoice`. */
    constructor NewForkchoice(store: KVStore)
      ensures this.store == store
    {
      this.store := store;
    }

    /** `FinalizedPayloadBlockHash`. */
    method FinalizedPayloadBlockHash() returns (r: Outcome<Hash32>)
      ensures r == StoredHash(store.data)
    {
      var value := store.Get(FinalizedKey);
      var bz := SliceBytes(value);
      if |bz| < 32 {
        return Panicked("slice shorter than the array it is converted to");
      }
      var hash: Hash32 := bz[..32];
      return Returned(hash);
    }

    /** `SetFinalizedPayloadBlockHash`. */
    method SetFinalizedPayloadBlockHash(hash: Hash32)
      modifies store
      ensures store.data == old(store.data)[FinalizedKey := hash]
      ensures StoredHash(store.data) == Returned(hash)
    {
      store.Set(FinalizedKey, hash);
      SetThenGet(old(store.data), hash);
    }
  }
}
