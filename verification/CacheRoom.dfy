/**
 How the caches make room for one more entry.
 */
module CacheRoom {

  // Room for one more below max: nothing goes while there is room; expired entries go
  // first, and swept is what they leave; live ones go only while the cache is still full.
  ghost predicate RoomMade<K, V>(before: map<K, V>, swept: map<K, V>, after: map<K, V>, max: nat) {
    && (forall k :: k in after ==> k in before && after[k] == before[k])
    && |after| < max
    && (|before| < max ==> after == before)
    && (|before| >= max && |swept| < max ==> after == swept)
    && (|before| >= max && |swept| >= max ==> |after| == max - 1 && after.Keys <= swept.Keys)
  }
}
