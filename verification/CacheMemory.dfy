/**
 internal/cache/memory.go: the class, with entries whose header and body are
 references. Each method is tied to the value-level sections of CacheModel, and
 every entry that goes in or out is copied.
 */
module CacheMemory {
  import opened Wrappers
  import opened CacheModel

  /** A header map: a reference whose values are references too. */
  class Header {
    var fields: map<string, array<string>>

    constructor ()
      ensures fields == map[]
    {
      fields := map[];
    }
  }

  datatype Entry = Entry(status: int, header: Header?, body: array<char>, expiresAt: int)

  /** Everything an entry refers to. */
  ghost function Storage(e: Entry): set<object>
    reads e.header
  {
    {e.body as object}
    + if e.header == null then {}
      else {e.header as object} + (set k | k in e.header.fields :: e.header.fields[k] as object)
  }

  ghost function FieldsOf(h: Header): map<string, seq<string>>
    reads h, set k | k in h.fields :: h.fields[k]
  {
    map k | k in h.fields :: h.fields[k][..]
  }

  ghost function ViewOf(e: Entry): View
    reads e.header, Storage(e)
  {
    View(e.status, if e.header == null then None else Some(FieldsOf(e.header)), e.body[..], e.expiresAt)
  }

  method CopyArray<T>(a: array<T>) returns (b: array<T>)
    ensures fresh(b) && b[..] == a[..]
  {
    b := new T[a.Length](i requires 0 <= i < a.Length reads a => a[i]);
  }

  method CloneHeader(h: Header) returns (out: Header)
    ensures fresh(out) && FieldsOf(out) == FieldsOf(h)
    ensures forall k :: k in out.fields ==> fresh(out.fields[k])
  {
    out := new Header();
    var todo := h.fields.Keys;
    while todo != {}
      invariant fresh(out) && todo <= h.fields.Keys
      invariant out.fields.Keys == h.fields.Keys - todo
      invariant forall k :: k in out.fields ==> fresh(out.fields[k]) && out.fields[k][..] == h.fields[k][..]
      decreases todo
    {
      var k :| k in todo;
      var vv := CopyArray(h.fields[k]);
      out.fields := out.fields[k := vv];
      todo := todo - {k};
    }
  }

  /** A deep copy: the same contents in storage of its own. */
  method CloneEntry(e: Entry) returns (out: Entry)
    ensures fresh(Storage(out)) && ViewOf(out) == ViewOf(e)
  {
    var body := CopyArray(e.body);
    if e.header == null {
      out := Entry(e.status, null, body, e.expiresAt);
    } else {
      var header := CloneHeader(e.header);
      out := Entry(e.status, header, body, e.expiresAt);
    }
  }

  class Memory {
    const maxKeys: nat
    var entries: map<string, Entry>
    ghost var Repr: set<object>

    ghost predicate Valid()
      reads this, Repr
    {
      && maxKeys >= 1 && this !in Repr
      && forall k :: k in entries ==>
           (entries[k].header != null ==> entries[k].header in Repr) && Storage(entries[k]) <= Repr
    }

    ghost function Value(): Contents
      requires Valid()
      reads this, Repr
    {
      map k | k in entries :: ViewOf(entries[k])
    }

    constructor (maxKeys: int)
      ensures Valid() && Value() == map[] && Repr == {}
      ensures this.maxKeys == if maxKeys <= 0 then 1000 else maxKeys
    {
      this.maxKeys := if maxKeys <= 0 then 1000 else maxKeys;
      entries := map[];
      Repr := {};
    }

    /** `Get` without interference between its sections. */
    method Get(key: string, now: int) returns (r: Option<Entry>)
      requires Valid()
      modifies this
      ensures Valid() && Repr == old(Repr)
      ensures r.Some? ==> fresh(Storage(r.value))
      ensures var m := old(Value());
        match ReadSection(m, key, now)
        case Hit(v) => Value() == m && r.Some? && ViewOf(r.value) == v
        case Miss => Value() == m && r == None
        case Recheck =>
          && Value() == RecheckContents(m, key, now)
          && r == None && RecheckResult(m, key, now) == Miss
    {
      if key !in entries { return None; }
      var entry := entries[key];
      if now > entry.expiresAt {
        r := GetRecheck(key, now);
        return;
      }
      var out := CloneEntry(entry);
      return Some(out);
    }

    /** The section of `Get` under the write lock, whatever happened since its read section. */
    method GetRecheck(key: string, now: int) returns (r: Option<Entry>)
      requires Valid()
      modifies this
      ensures Valid() && Repr == old(Repr)
      ensures r.Some? ==> fresh(Storage(r.value))
      ensures Value() == RecheckContents(old(Value()), key, now)
      ensures RecheckResult(old(Value()), key, now) == if r.Some? then Hit(ViewOf(r.value)) else Miss
    {
      if key in entries && !(now > entries[key].expiresAt) {
        var out := CloneEntry(entries[key]);
        return Some(out);
      }
      if key in entries {
        Delete(key);
      }
      return None;
    }

    method Delete(key: string)
      requires Valid() && key in entries
      modifies `entries
      ensures Valid() && Value() == Without(old(Value()), key)
      ensures entries == map k | k in old(entries) && k != key :: old(entries)[k]
    {
      entries := map k | k in entries && k != key :: entries[k];
    }

    /** The victim is the key that the map iteration yields first. */
    method Set(key: string, entry: Entry, now: int) returns (ghost victim: string)
      requires Valid()
      modifies this
      ensures Valid() && fresh(Repr - old(Repr))
      ensures VictimOk(old(Value()), maxKeys, now, victim)
      ensures Value() == SetEntry(old(Value()), maxKeys, key, old(ViewOf(entry)), now, victim)
    {
      ghost var m, v := Value(), ViewOf(entry);
      victim := MakeRoom(now);
      ghost var roomy := Value();
      assert ViewOf(entry) == v;
      Store(key, entry);
      assert Value() == roomy[key := v] == SetEntry(m, maxKeys, key, v, now, victim);
    }

    /** The first half of `Set`. */
    method MakeRoom(now: int) returns (ghost victim: string)
      requires Valid()
      modifies `entries
      ensures Valid() && VictimOk(old(Value()), maxKeys, now, victim)
      ensures var m := old(Value());
        Value() == if |m| < maxKeys then m
                   else if |Sweep(m, now)| < maxKeys then Sweep(m, now)
                   else Without(Sweep(m, now), victim)
    {
      victim := "";
      SameSize();
      if |entries| >= maxKeys {
        DoSweep(now);
        SameSize();
        if |entries| >= maxKeys {
          var k :| k in entries;
          victim := k;
          Delete(k);
        }
      }
    }

    lemma {:induction false} SameSize()
      requires Valid()
      ensures |entries| == |Value()|
    {
      assert entries.Keys == Value().Keys;
    }

    method DoSweep(now: int)
      requires Valid()
      modifies `entries
      ensures Valid() && Value() == Sweep(old(Value()), now)
    {
      DeleteExpired(now);
      assert forall k :: k in entries ==> ViewOf(entries[k]) == old(ViewOf(entries[k]));
    }

    method DeleteExpired(now: int)
      modifies `entries
      ensures entries == map k | k in old(entries) && !(now > old(entries)[k].expiresAt) :: old(entries)[k]
    {
      ghost var m := entries;
      var todo := entries.Keys;
      while todo != {}
        invariant todo <= m.Keys
        invariant entries == map k | k in m && (k in todo || !(now > m[k].expiresAt)) :: m[k]
        decreases todo
      {
        var k :| k in todo;
        if now > entries[k].expiresAt {
          entries := map x | x in entries && x != k :: entries[x];
        }
        todo := todo - {k};
      }
    }

    method Store(key: string, entry: Entry)
      requires Valid()
      modifies `entries, `Repr
      ensures Valid() && fresh(Repr - old(Repr))
      ensures Value() == old(Value())[key := old(ViewOf(entry))]
    {
      ghost var m, v := Value(), ViewOf(entry);
      var copy := CloneEntry(entry);
      assert Value() == m && ViewOf(copy) == v;
      Put(key, copy);
      assert ViewOf(copy) == v;
      assert Value() == m[key := ViewOf(copy)];
    }

    /** The entry is the cache's own from here on. */
    method Put(key: string, copy: Entry)
      requires Valid() && this !in Storage(copy)
      modifies `entries, `Repr
      ensures Valid() && Repr == old(Repr) + Storage(copy)
      ensures Value() == old(Value())[key := ViewOf(copy)]
    {
      Repr := Repr + Storage(copy);
      entries := entries[key := copy];
    }
  }
}
