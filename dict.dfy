/**
  The association-list dictionary of src/c/dict.c: entries kept in insertion
  order, `put` appends without looking for the key, and lookups scan from the
  front, so the earliest entry for a key is the one found.
 */
module Dict {
  import opened Wrappers

  /** The position of the first entry whose key is `key`, or -1: what
      linked_list_find_compare with the strcmp callback returns. */
  function FirstIndex<V>(entries: seq<(string, V)>, key: string): (i: int)
    ensures -1 <= i < |entries|
    ensures i == -1 <==> forall j :: 0 <= j < |entries| ==> entries[j].0 != key
    ensures i >= 0 ==> entries[i].0 == key && forall j :: 0 <= j < i ==> entries[j].0 != key
  {
    if entries == [] then -1
    else if entries[0].0 == key then 0
    else
      var i := FirstIndex(entries[1..], key);
      if i < 0 then -1 else i + 1
  }

  /** The value `dict_get` returns: that of the earliest entry for `key`, or
      None (NULL) when there is none. */
  function Lookup<V>(entries: seq<(string, V)>, key: string): (r: Option<V>)
    ensures r.None? <==> forall j :: 0 <= j < |entries| ==> entries[j].0 != key
    ensures r.Some? ==> exists i :: 0 <= i < |entries| && entries[i] == (key, r.value)
                                    && forall j :: 0 <= j < i ==> entries[j].0 != key
  {
    var i := FirstIndex(entries, key);
    if i < 0 then None else Some(entries[i].1)
  }

  /** Appending never changes what an existing key looks up to: the first
      entry keeps winning. A key seen for the first time finds the new entry. */
  lemma {:induction false} LookupAfterAppend<V>(entries: seq<(string, V)>, k: string, v: V, key: string)
    ensures Lookup(entries + [(k, v)], key) ==
      if Lookup(entries, key).Some? then Lookup(entries, key)
      else if key == k then Some(v)
      else None
  {
    var all := entries + [(k, v)];
    var i := FirstIndex(entries, key);
    if i >= 0 {
      assert all[i] == entries[i];
      assert forall j :: 0 <= j < i ==> all[j] == entries[j];
      FirstIndexIsFirstMatch(all, key, i);
    } else if key == k {
      FirstIndexIsFirstMatch(all, key, |entries|);
    } else {
      assert forall j :: 0 <= j < |all| ==> all[j].0 != key by {
        forall j | 0 <= j < |all| ensures all[j].0 != key {
          if j < |entries| { assert all[j] == entries[j]; }
        }
      }
    }
  }

  /** The first match is unique: any position that matches with no match
      before it is the one FirstIndex returns. */
  lemma FirstIndexIsFirstMatch<V>(entries: seq<(string, V)>, key: string, i: nat)
    requires i < |entries| && entries[i].0 == key
    requires forall j :: 0 <= j < i ==> entries[j].0 != key
    ensures FirstIndex(entries, key) == i
  {
  }

  /** Two registrations under one name: the first one is what is found. */
  lemma FirstRegistrationWins<V>(entries: seq<(string, V)>, key: string, first: V, second: V)
    requires Lookup(entries, key).None?
    ensures Lookup(entries + [(key, first)] + [(key, second)], key) == Some(first)
  {
    LookupAfterAppend(entries, key, first, key);
    LookupAfterAppend(entries + [(key, first)], key, second, key);
  }

  class Dict<V> {
    /** The entries list, in insertion order. A NULL list and an empty one
        behave alike and are both the empty sequence here. */
    var entries: seq<(string, V)>

    /** dict_create */
    constructor ()
      ensures entries == []
    {
      entries := [];
    }

    /** dict_destroy: the entries are released. */
    method Destroy()
      modifies this
      ensures entries == []
    {
      entries := [];
    }

    /** dict_put: appends; an existing entry for `key` is kept. */
    method Put(key: string, value: V)
      modifies this
      ensures entries == old(entries) + [(key, value)]
    {
      entries := entries + [(key, value)];
    }

    /** The linear scan linked_list_find_compare performs. */
    method Find(key: string) returns (i: int)
      ensures -1 <= i < |entries|
      ensures i == -1 <==> forall j :: 0 <= j < |entries| ==> entries[j].0 != key
      ensures i >= 0 ==> entries[i].0 == key && forall j :: 0 <= j < i ==> entries[j].0 != key
    {
      i := 0;
      while i < |entries|
        invariant 0 <= i <= |entries|
        invariant forall j :: 0 <= j < i ==> entries[j].0 != key
      {
        if entries[i].0 == key {
          return;
        }
        i := i + 1;
      }
      i := -1;
    }

    /** dict_contains: some entry has the key; false on an empty dictionary. */
    method Contains(key: string) returns (b: bool)
      ensures b <==> exists j :: 0 <= j < |entries| && entries[j].0 == key
    {
      if entries == [] {
        return false;
      }
      var i := Find(key);
      b := i >= 0;
    }

    /** dict_get: the earliest entry's value, or None. */
    method Get(key: string) returns (r: Option<V>)
      ensures r == Lookup(entries, key)
    {
      if entries == [] {
        return None;
      }
      var i := Find(key);
      if i < 0 {
        return None;
      }
      r := Some(entries[i].1);
    }

    /** The value dict_remove returns: that of the first match, or None when
        the key is absent or the dictionary is empty. */
    method Remove(key: string) returns (r: Option<V>)
      ensures r.None? <==> forall j :: 0 <= j < |entries| ==> entries[j].0 != key
      ensures r.Some? ==> exists i :: 0 <= i < |entries| && entries[i] == (key, r.value)
                                      && forall j :: 0 <= j < i ==> entries[j].0 != key
    {
      if entries == [] {
        return None;
      }
      var i := Find(key);
      if i < 0 {
        return None;
      }
      r := Some(entries[i].1);
    }

    /** dict_foreach: the (key, value) arguments the callback receives, in
        the order it receives them: every entry in insertion order, nothing
        for an empty dictionary. */
    method ForEach() returns (calls: seq<(string, V)>)
      ensures calls == entries
    {
      calls := [];
      for i := 0 to |entries|
        invariant calls == entries[..i]
      {
        calls := calls + [entries[i]];
      }
    }
  }
}
