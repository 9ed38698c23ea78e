/** Events, and the bolt bucket that holds them: entries in strictly ascending key order, walked with a cursor. */
module JournalEvents {
  const MAXIMUM_UINT64: nat := 0xffff_ffff_ffff_ffff

  type Uint64 = n: int | 0 <= n <= MAXIMUM_UINT64

  /** One reported event; the payload is opaque here. */
  datatype Event = Event(
    id: string, sequence: Uint64, kind: EventKind, runKind: string, revision: nat, trigger: string, scheduledFor: string, payload: string)

  datatype EventKind =
    | RunStarted | RunProgress | ClockSkew | ReportingGap
    | RunFinished | SnapshotInventoryChunk | ReplicationFinished
}

module EventBuckets {
  import opened JournalEvents
  import opened KeyOrder

  datatype Entry = Entry(key: string, value: Event)

  ghost predicate Ascending(entries: seq<Entry>) {
    forall i, j | 0 <= i < j < |entries| :: Below(entries[i].key, entries[j].key)
  }

  /** `Put`: a new entry in its place, or a new value under the same key. */
  function Insert(entries: seq<Entry>, key: string, value: Event): seq<Entry> {
    if entries == [] then [Entry(key, value)]
    else if Below(key, entries[0].key) then [Entry(key, value)] + entries
    else if key == entries[0].key then [Entry(key, value)] + entries[1..]
    else [entries[0]] + Insert(entries[1..], key, value)
  }

  /** The entries whose key starts with `prefix`, in key order. */
  function WithPrefix(entries: seq<Entry>, prefix: string): seq<Entry> {
    if entries == [] then []
    else (if prefix <= entries[0].key then [entries[0]] else []) + WithPrefix(entries[1..], prefix)
  }

  lemma FirstIsLeast(entries: seq<Entry>)
    requires Ascending(entries) && entries != []
    ensures forall e | e in entries[1..] :: Below(entries[0].key, e.key)
  {
    forall e | e in entries[1..] ensures Below(entries[0].key, e.key) {
      var k :| 0 <= k < |entries[1..]| && entries[1..][k] == e;
      assert entries[k + 1] == e;
    }
  }

  lemma {:induction false} InsertMembers(entries: seq<Entry>, key: string, value: Event)
    requires Ascending(entries)
    ensures forall e :: e in Insert(entries, key, value) <==> e == Entry(key, value) || (e in entries && e.key != key)
  {
    if entries != [] {
      Irreflexive(key);
      if Below(key, entries[0].key) {
        forall e | e in entries ensures e.key != key {
          if e != entries[0] && e.key == key {
            Transitive(key, entries[0].key, e.key);
          }
        }
      } else if key == entries[0].key {
        forall e | e in entries[1..] ensures e.key != key {
          Irreflexive(e.key);
        }
        assert entries == [entries[0]] + entries[1..];
      } else {
        InsertMembers(entries[1..], key, value);
        assert entries == [entries[0]] + entries[1..];
      }
    }
  }

  lemma {:induction false} InsertAscending(entries: seq<Entry>, key: string, value: Event)
    requires Ascending(entries)
    ensures Ascending(Insert(entries, key, value))
  {
    if entries != [] {
      var rest := entries[1..];
      FirstIsLeast(entries);
      if Below(key, entries[0].key) {
        forall e | e in rest ensures Below(key, e.key) {
          Transitive(key, entries[0].key, e.key);
        }
      } else if key != entries[0].key {
        Total(key, entries[0].key);
        InsertAscending(rest, key, value);
        InsertMembers(rest, key, value);
        var tail := Insert(rest, key, value);
        forall i | 0 <= i < |tail| ensures Below(entries[0].key, tail[i].key) {
          assert tail[i] in tail;
        }
      }
    }
  }

  lemma {:induction false} WithPrefixMembers(entries: seq<Entry>, prefix: string)
    ensures forall e :: e in WithPrefix(entries, prefix) <==> e in entries && prefix <= e.key
  {
    if entries != [] {
      WithPrefixMembers(entries[1..], prefix);
      assert entries == [entries[0]] + entries[1..];
    }
  }

  lemma {:induction false} WithPrefixAscending(entries: seq<Entry>, prefix: string)
    requires Ascending(entries)
    ensures Ascending(WithPrefix(entries, prefix))
  {
    if entries != [] {
      var rest := WithPrefix(entries[1..], prefix);
      FirstIsLeast(entries);
      WithPrefixAscending(entries[1..], prefix);
      WithPrefixMembers(entries[1..], prefix);
      forall i | 0 <= i < |rest| ensures Below(entries[0].key, rest[i].key) {
        assert rest[i] in rest;
      }
    }
  }

  lemma {:induction false} WithPrefixSplit(a: seq<Entry>, b: seq<Entry>, prefix: string)
    ensures WithPrefix(a + b, prefix) == WithPrefix(a, prefix) + WithPrefix(b, prefix)
  {
    if a == [] {
      assert a + b == b;
    } else {
      assert (a + b)[1..] == a[1..] + b;
      WithPrefixSplit(a[1..], b, prefix);
    }
  }

  lemma SameTail(a: seq<Entry>, b: seq<Entry>)
    requires Ascending(a) && Ascending(b) && a != [] && b != [] && a[0] == b[0]
    requires forall e :: e in a <==> e in b
    ensures forall e :: e in a[1..] <==> e in b[1..]
  {
    FirstIsLeast(a);
    FirstIsLeast(b);
    Irreflexive(a[0].key);
    assert a == [a[0]] + a[1..] && b == [b[0]] + b[1..];
    forall e ensures e in a[1..] <==> e in b[1..] {
      assert e in a <==> e == a[0] || e in a[1..];
      assert e in b <==> e == b[0] || e in b[1..];
    }
  }

  /** Two ascending lists with the same members are the same list. */
  lemma {:induction false} SameMembers(a: seq<Entry>, b: seq<Entry>)
    requires Ascending(a) && Ascending(b)
    requires forall e :: e in a <==> e in b
    ensures a == b
  {
    assert b != [] ==> b[0] in b;
    if a != [] {
      assert a[0] in b && b != [] && b[0] in a;
      if a[0] != b[0] {
        Transitive(a[0].key, b[0].key, a[0].key);
        Irreflexive(a[0].key);
      }
      FirstIsLeast(a);
      FirstIsLeast(b);
      SameTail(a, b);
      SameMembers(a[1..], b[1..]);
    }
  }

  /** A cursor positioned by `Seek(prefix)` and advanced while the prefix matches. */
  method Scan(entries: seq<Entry>, prefix: string) returns (found: seq<Entry>)
    requires Ascending(entries)
    ensures found == WithPrefix(entries, prefix)
  {
    var i := Seek(entries, prefix);
    ghost var start := i;
    found := [];
    NoneBefore(entries, prefix, i);
    while i < |entries| && prefix <= entries[i].key
      invariant start <= i <= |entries|
      invariant found == WithPrefix(entries[..i], prefix)
    {
      assert entries[..i + 1] == entries[..i] + [entries[i]];
      WithPrefixSplit(entries[..i], [entries[i]], prefix);
      found := found + [entries[i]];
      i := i + 1;
    }
    NoneAfter(entries, prefix, start, i);
    assert entries == entries[..i] + entries[i..];
    WithPrefixSplit(entries[..i], entries[i..], prefix);
  }

  /** The first entry at or after `key`. */
  method Seek(entries: seq<Entry>, key: string) returns (i: nat)
    ensures i <= |entries|
    ensures forall j | 0 <= j < i :: Below(entries[j].key, key)
    ensures i < |entries| ==> !Below(entries[i].key, key)
  {
    i := 0;
    while i < |entries| && Below(entries[i].key, key)
      invariant i <= |entries|
      invariant forall j | 0 <= j < i :: Below(entries[j].key, key)
    {
      i := i + 1;
    }
  }

  lemma NoneBefore(entries: seq<Entry>, prefix: string, i: nat)
    requires i <= |entries| && forall j | 0 <= j < i :: Below(entries[j].key, prefix)
    ensures WithPrefix(entries[..i], prefix) == []
  {
    forall e | e in entries[..i] ensures !(prefix <= e.key) {
      if prefix <= e.key {
        PrefixNotBelow(prefix, e.key);
      }
    }
    NonePrefixed(entries[..i], prefix);
  }

  lemma NoneAfter(entries: seq<Entry>, prefix: string, start: nat, i: nat)
    requires Ascending(entries) && start <= i <= |entries|
    requires start < |entries| ==> !Below(entries[start].key, prefix)
    requires i < |entries| ==> !(prefix <= entries[i].key)
    ensures WithPrefix(entries[i..], prefix) == []
  {
    forall e | e in entries[i..] ensures !(prefix <= e.key) {
      if prefix <= e.key {
        var a := entries[i].key;
        if start < i && Below(a, prefix) {
          Transitive(entries[start].key, a, prefix);
        }
        PrefixContiguous(prefix, a, e.key);
      }
    }
    NonePrefixed(entries[i..], prefix);
  }

  lemma {:induction false} NonePrefixed(entries: seq<Entry>, prefix: string)
    requires forall e | e in entries :: !(prefix <= e.key)
    ensures WithPrefix(entries, prefix) == []
  {
    if entries != [] {
      NonePrefixed(entries[1..], prefix);
    }
  }

  /** Storing under a prefixed key is storing into the scan; any other key leaves the scan alone. */
  lemma InsertScan(entries: seq<Entry>, key: string, value: Event, prefix: string)
    requires Ascending(entries)
    ensures WithPrefix(Insert(entries, key, value), prefix) ==
            if prefix <= key then Insert(WithPrefix(entries, prefix), key, value) else WithPrefix(entries, prefix)
  {
    var after, before := Insert(entries, key, value), WithPrefix(entries, prefix);
    InsertAscending(entries, key, value);
    InsertMembers(entries, key, value);
    WithPrefixAscending(after, prefix);
    WithPrefixMembers(after, prefix);
    WithPrefixAscending(entries, prefix);
    WithPrefixMembers(entries, prefix);
    if prefix <= key {
      InsertAscending(before, key, value);
      InsertMembers(before, key, value);
      SameMembers(WithPrefix(after, prefix), Insert(before, key, value));
    } else {
      SameMembers(WithPrefix(after, prefix), before);
    }
  }

  lemma {:induction false} InsertLast(entries: seq<Entry>, key: string, value: Event)
    requires forall e | e in entries :: Below(e.key, key)
    ensures Insert(entries, key, value) == entries + [Entry(key, value)]
  {
    if entries != [] {
      NotBelowBoth(entries[0].key, key);
      InsertLast(entries[1..], key, value);
      assert entries == [entries[0]] + entries[1..];
    }
  }

  lemma NotBelowBoth(a: string, b: string)
    requires Below(a, b)
    ensures !Below(b, a) && a != b
  {
    if Below(b, a) {
      Transitive(a, b, a);
    }
    Irreflexive(a);
  }
}
