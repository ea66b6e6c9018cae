/** Facts about maps shared by the trackers. */
module Collections {

  /** Storing under a key adds an entry exactly when the key was absent. */
  lemma UpdateSize<K, V>(m: map<K, V>, k: K, v: V)
    ensures |m[k := v]| == if k in m then |m| else |m| + 1
  {
    if k in m {
      assert m[k := v].Keys == m.Keys;
    } else {
      assert m[k := v].Keys == m.Keys + {k};
    }
  }
}
