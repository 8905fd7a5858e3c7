/**
  The string-keyed store shared by the agent's goroutines (common/memory/memory.go).  Every
  operation holds the mutex, so each is one step.
 */
module MemoryStore {
  import opened Selection

  class Store<V> {
    var m: map<string, V>

    constructor ()
      ensures m == map[]
    {
      m := map[];
    }

    method Set(key: string, val: V)
      modifies this
      ensures m == old(m)[key := val]
    {
      m := m[key := val];
    }

    method Del(key: string)
      modifies this
      ensures m == old(m) - {key}
    {
      m := m - {key};
    }

    method Get(key: string) returns (val: Option<V>)
      ensures val == if key in m then Some(m[key]) else None
    {
      return if key in m then Some(m[key]) else None;
    }

    method Has(key: string) returns (found: bool)
      ensures found <==> key in m
    {
      return key in m;
    }

    /** Get and Del in one step. */
    method Pop(key: string) returns (val: Option<V>)
      modifies this
      ensures m == old(m) - {key}
      ensures val == if key in old(m) then Some(old(m)[key]) else None
    {
      if key in m {
        val := Some(m[key]);
        m := m - {key};
      } else {
        val := None;
      }
    }

    /** A copy, filled key by key in any order. */
    method List() returns (r: map<string, V>)
      ensures r == m
    {
      r := map[];
      var keys := m.Keys;
      while keys != {}
        invariant keys <= m.Keys
        invariant r == map k | k in m && k !in keys :: m[k]
        decreases keys
      {
        var key :| key in keys;
        r := r[key := m[key]];
        keys := keys - {key};
      }
    }

    /** The entries whose key passes, collected in any order. */
    method Filter(fn: string -> bool) returns (r: map<string, V>)
      ensures r == map k | k in m && fn(k) :: m[k]
    {
      r := map[];
      var keys := m.Keys;
      while keys != {}
        invariant keys <= m.Keys
        invariant r == map k | k in m && fn(k) && k !in keys :: m[k]
        decreases keys
      {
        var key :| key in keys;
        if fn(key) {
          r := r[key := m[key]];
        }
        keys := keys - {key};
      }
    }
  }
}
