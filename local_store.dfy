/** The browser's HTML5 key-value store as the core sees it: a sequence of
    (key, value) entries in key(index) order. setItem overwrites in place or
    appends, removeItem deletes an entry and shifts every later entry down by
    one index. */
module LocalStore {
  import opened Wrappers

  type Store = seq<(string, string)>

  /** getItem: the value stored under `k`, or null. */
  function Get(s: Store, k: string): Option<string>
  {
    if s == [] then None
    else if s[0].0 == k then Some(s[0].1)
    else Get(s[1..], k)
  }

  /** setItem: replace the value of an existing key, else append the entry. */
  function Put(s: Store, k: string, v: string): Store
  {
    if s == [] then [(k, v)]
    else if s[0].0 == k then [(k, v)] + s[1..]
    else [s[0]] + Put(s[1..], k, v)
  }

  /** removeItem: delete the entry of `k`; entries after it move down by one. */
  function Remove(s: Store, k: string): Store
  {
    if s == [] then []
    else if s[0].0 == k then s[1..]
    else [s[0]] + Remove(s[1..], k)
  }

  /** The entries whose key does not satisfy `drop`, in their original order. */
  function Drop(s: Store, drop: string -> bool): Store
  {
    if s == [] then []
    else Drop(s[..|s| - 1], drop) + (if drop(s[|s| - 1].0) then [] else [s[|s| - 1]])
  }

  /** The keys that satisfy `select`, in store order. */
  function KeysWhere(s: Store, select: string -> bool): seq<string>
  {
    if s == [] then []
    else KeysWhere(s[..|s| - 1], select) + (if select(s[|s| - 1].0) then [s[|s| - 1].0] else [])
  }

  /** The values stored under keys that satisfy `select`, in store order. */
  function ValuesWhere(s: Store, select: string -> bool): seq<string>
  {
    if s == [] then []
    else ValuesWhere(s[..|s| - 1], select) + (if select(s[|s| - 1].0) then [s[|s| - 1].1] else [])
  }

  lemma {:induction false} GetPut(s: Store, k: string, v: string)
    ensures Get(Put(s, k, v), k) == Some(v)
  {
    if s != [] && s[0].0 != k {
      GetPut(s[1..], k, v);
    }
  }

  lemma {:induction false} GetPutOther(s: Store, k: string, v: string, other: string)
    requires other != k
    ensures Get(Put(s, k, v), other) == Get(s, other)
  {
    if s != [] && s[0].0 != k {
      GetPutOther(s[1..], k, v, other);
    }
  }

  /** Reading the key found at index `i` when no earlier entry has it. */
  lemma {:induction false} GetAt(s: Store, i: nat)
    requires i < |s|
    requires forall j :: 0 <= j < i ==> s[j].0 != s[i].0
    ensures Get(s, s[i].0) == Some(s[i].1)
  {
    if i > 0 {
      GetAt(s[1..], i - 1);
    }
  }

  /** Removing the key found at index `i` when no earlier entry has it
      shifts every later entry down by one. */
  lemma {:induction false} RemoveAt(s: Store, i: nat)
    requires i < |s|
    requires forall j :: 0 <= j < i ==> s[j].0 != s[i].0
    ensures Remove(s, s[i].0) == s[..i] + s[i + 1..]
  {
    if i > 0 {
      RemoveAt(s[1..], i - 1);
      assert s[1..][..i - 1] == s[1..i];
      assert s[1..][i..] == s[i + 1..];
      assert [s[0]] + s[1..i] == s[..i];
    }
  }

  /** No surviving entry has a dropped key. */
  lemma {:induction false} DropExcludes(s: Store, drop: string -> bool)
    ensures forall e :: e in Drop(s, drop) ==> !drop(e.0)
  {
    if s != [] {
      DropExcludes(s[..|s| - 1], drop);
    }
  }

  /** Every entry whose key is not dropped survives. */
  lemma {:induction false} DropKeeps(s: Store, drop: string -> bool)
    ensures forall e :: e in s && !drop(e.0) ==> e in Drop(s, drop)
  {
    if s != [] {
      var init := s[..|s| - 1];
      DropKeeps(init, drop);
      assert s == init + [s[|s| - 1]];
    }
  }

  /** Extending a prefix by one entry extends the survivors by that entry
      exactly when it is not dropped. */
  lemma DropSnoc(s: Store, i: nat, drop: string -> bool)
    requires i < |s|
    ensures Drop(s[..i + 1], drop) == Drop(s[..i], drop) + (if drop(s[i].0) then [] else [s[i]])
  {
    assert s[..i + 1][..i] == s[..i];
  }

  lemma KeysWhereSnoc(s: Store, i: nat, select: string -> bool)
    requires i < |s|
    ensures KeysWhere(s[..i + 1], select) == KeysWhere(s[..i], select) + (if select(s[i].0) then [s[i].0] else [])
  {
    assert s[..i + 1][..i] == s[..i];
  }

  lemma ValuesWhereSnoc(s: Store, i: nat, select: string -> bool)
    requires i < |s|
    ensures ValuesWhere(s[..i + 1], select) == ValuesWhere(s[..i], select) + (if select(s[i].0) then [s[i].1] else [])
  {
    assert s[..i + 1][..i] == s[..i];
  }

  /** One step of a removal pass: with the first `i` entries already
      filtered, the entry now at `index` is the original i-th one; removing
      it (when dropped, in which case it is also the first entry with its
      key) or stepping over it (when kept) filters one more original entry. */
  lemma RemovalStep(initial: Store, i: nat, drop: string -> bool, s: Store, index: nat)
    requires i < |initial|
    requires s == Drop(initial[..i], drop) + initial[i..]
    requires index == |Drop(initial[..i], drop)|
    ensures index < |s| && s[index] == initial[i]
    ensures drop(initial[i].0) ==>
      Get(s, initial[i].0) == Some(initial[i].1)
      && Remove(s, initial[i].0) == Drop(initial[..i + 1], drop) + initial[i + 1..]
      && |Drop(initial[..i + 1], drop)| == index
    ensures !drop(initial[i].0) ==>
      s == Drop(initial[..i + 1], drop) + initial[i + 1..]
      && |Drop(initial[..i + 1], drop)| == index + 1
  {
    var done := Drop(initial[..i], drop);
    assert s[index] == initial[i];
    DropSnoc(initial, i, drop);
    assert initial[i..][1..] == initial[i + 1..];
    if drop(initial[i].0) {
      DropExcludes(initial[..i], drop);
      forall j | 0 <= j < index
        ensures s[j].0 != s[index].0
      {
        assert s[j] in done;
      }
      GetAt(s, index);
      RemoveAt(s, index);
      assert s[..index] == done;
      assert s[index + 1..] == initial[i + 1..];
    }
  }
}
