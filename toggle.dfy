/** Membership toggles on a many-to-many relation held as one set per
    owning record (`following` per user, `liked_by` per post). Each toggle
    looks at the member set first and writes only when the answer calls
    for it. */
module Toggle {

  /** `relation.add(x)` on record `k`, guarded by `if x not in ...`. */
  function Insert<K, T>(m: map<K, set<T>>, k: K, x: T): (r: map<K, set<T>>)
    requires k in m
    ensures r.Keys == m.Keys
    ensures r[k] == m[k] + {x}
    ensures forall j :: j in m && j != k ==> r[j] == m[j]
  {
    if x !in m[k] then m[k := m[k] + {x}] else m
  }

  /** `relation.remove(x)` on record `k`, guarded by `if x in ...`. */
  function Delete<K, T>(m: map<K, set<T>>, k: K, x: T): (r: map<K, set<T>>)
    requires k in m
    ensures r.Keys == m.Keys
    ensures r[k] == m[k] - {x}
    ensures forall j :: j in m && j != k ==> r[j] == m[j]
  {
    if x in m[k] then m[k := m[k] - {x}] else m
  }

  /** Adding a member that is already there writes nothing. */
  lemma InsertPresent<K, T>(m: map<K, set<T>>, k: K, x: T)
    requires k in m && x in m[k]
    ensures Insert(m, k, x) == m
  {
  }

  /** Removing a member that is not there writes nothing. */
  lemma DeleteAbsent<K, T>(m: map<K, set<T>>, k: K, x: T)
    requires k in m && x !in m[k]
    ensures Delete(m, k, x) == m
  {
  }

  /** A second add converges on the state the first one reached. */
  lemma InsertIdempotent<K, T>(m: map<K, set<T>>, k: K, x: T)
    requires k in m
    ensures Insert(Insert(m, k, x), k, x) == Insert(m, k, x)
  {
  }

  /** A second remove converges on the state the first one reached. */
  lemma DeleteIdempotent<K, T>(m: map<K, set<T>>, k: K, x: T)
    requires k in m
    ensures Delete(Delete(m, k, x), k, x) == Delete(m, k, x)
  {
  }

  /** Removing what was just added to a set that lacked it restores the
      relation exactly. */
  lemma DeleteUndoesInsert<K, T>(m: map<K, set<T>>, k: K, x: T)
    requires k in m && x !in m[k]
    ensures Delete(Insert(m, k, x), k, x) == m
  {
    assert m[k] + {x} - {x} == m[k];
    assert m[k := m[k]] == m;
  }

  /** Adding back what was just removed from a set that held it restores the
      relation exactly. */
  lemma InsertUndoesDelete<K, T>(m: map<K, set<T>>, k: K, x: T)
    requires k in m && x in m[k]
    ensures Insert(Delete(m, k, x), k, x) == m
  {
    assert m[k] - {x} + {x} == m[k];
    assert m[k := m[k]] == m;
  }
}
