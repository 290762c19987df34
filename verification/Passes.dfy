/** Loops that visit every key of a map once, in any order, rewriting its entry. */
module Passes {

  /** Entries in `todo` still hold their old value, the others their new one. */
  function Mixed<K, V>(before: map<K, V>, target: map<K, V>, todo: set<K>): map<K, V>
    requires before.Keys == target.Keys
  {
    map k | k in before :: if k in todo then before[k] else target[k]
  }

  lemma PassStart<K, V>(before: map<K, V>, target: map<K, V>)
    requires before.Keys == target.Keys
    ensures before == Mixed(before, target, before.Keys)
  {
  }

  lemma PassStep<K, V>(before: map<K, V>, target: map<K, V>, todo: set<K>, k: K)
    requires before.Keys == target.Keys && k in todo && k in before
    ensures Mixed(before, target, todo)[k := target[k]] == Mixed(before, target, todo - {k})
    ensures k in Mixed(before, target, todo) && Mixed(before, target, todo)[k] == before[k]
  {
  }

  lemma PassDone<K, V>(before: map<K, V>, target: map<K, V>)
    requires before.Keys == target.Keys
    ensures Mixed(before, target, {}) == target
  {
  }
}
