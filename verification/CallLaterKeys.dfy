/**
  The keys of callLater()'s registry: their equality and their hash.
 */
module CallLaterKeys {
  import opened Basics

  const KEY_BYTES := 32

  /** A deferred call's key; only the first targetSize bytes are ever written, the rest stay zero. */
  datatype Key = Key(context: ObjectId, typeHash: bv64, targetSize: nat, targetBytes: seq<bv8>)

  ghost predicate WellFormed(k: Key)
  {
    k.targetSize <= KEY_BYTES && |k.targetBytes| == KEY_BYTES
    && forall i :: k.targetSize <= i < KEY_BYTES ==> k.targetBytes[i] == 0
  }

  /** operator==: memcmp over the bytes in use. */
  predicate SameKey(a: Key, b: Key)
    requires |a.targetBytes| == |b.targetBytes| == KEY_BYTES && a.targetSize <= KEY_BYTES
  {
    && a.context == b.context && a.typeHash == b.typeHash && a.targetSize == b.targetSize
    && a.targetBytes[..a.targetSize] == b.targetBytes[..a.targetSize]
  }

  function Mix(h: bv64, b: bv8): bv64 { h * 31 + b as bv64 }

  function MixAll(h: bv64, bytes: seq<bv8>): bv64
    decreases |bytes|
  {
    if bytes == [] then h else MixAll(Mix(h, bytes[0]), bytes[1..])
  }

  /** The accumulating loop of CallLaterKeyHash, for any hash of the context pointer. */
  method Hash(k: Key, pointerHash: ObjectId -> bv64) returns (h: bv64)
    requires WellFormed(k)
    ensures h == MixAll(pointerHash(k.context) ^ (k.typeHash << 1), k.targetBytes[..k.targetSize])
  {
    h := pointerHash(k.context) ^ (k.typeHash << 1);
    ghost var start := h;
    var i := 0;
    while i < k.targetSize
      invariant 0 <= i <= k.targetSize
      invariant MixAll(start, k.targetBytes[..k.targetSize]) == MixAll(h, k.targetBytes[i..k.targetSize])
    {
      assert k.targetBytes[i..k.targetSize][1..] == k.targetBytes[i + 1..k.targetSize];
      h := Mix(h, k.targetBytes[i]);
      i := i + 1;
    }
  }

  /** Keys built by callLater() are equal for the registry exactly when they are the same key, and then hash alike. */
  lemma KeyEquality(a: Key, b: Key, pointerHash: ObjectId -> bv64)
    requires WellFormed(a) && WellFormed(b)
    ensures SameKey(a, b) <==> a == b
    ensures SameKey(a, b) ==>
              MixAll(pointerHash(a.context) ^ (a.typeHash << 1), a.targetBytes[..a.targetSize]) ==
              MixAll(pointerHash(b.context) ^ (b.typeHash << 1), b.targetBytes[..b.targetSize])
  {
    if SameKey(a, b) {
      var n := a.targetSize;
      forall i | 0 <= i < KEY_BYTES ensures a.targetBytes[i] == b.targetBytes[i] {
        if i < n {
          assert a.targetBytes[i] == a.targetBytes[..n][i] == b.targetBytes[..n][i];
        }
      }
      assert a.targetBytes == b.targetBytes;
    }
  }
}
