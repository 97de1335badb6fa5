/** The string table.  `python/src/trlog/_string_table.py` keeps a dictionary and a list;
    `c/src/string_table.c` keeps a list and an open-addressing hash table with linear probing.  Both
    number strings from 1 in the order they first appear. */
module StringTables {
  import opened Bits
  import opened Bytes
  import L = Lists
  import opened Varint

  // ---- The meaning: a list without duplicates ----

  /** Entry `i` has id `i + 1`; id 0 means absent. */
  type Strings = seq<bytes>

  ghost predicate Distinct(t: Strings) {
    forall i, j :: 0 <= i < j < |t| ==> t[i] != t[j]
  }

  function IndexOf(t: Strings, s: bytes): (i: nat)
    requires s in t
    ensures i < |t| && t[i] == s
  {
    if t[0] == s then 0 else 1 + IndexOf(t[1..], s)
  }

  /** The id a string gets, and the table afterwards. */
  function IdOf(t: Strings, s: bytes): nat {
    if s in t then IndexOf(t, s) + 1 else |t| + 1
  }

  function After(t: Strings, s: bytes): Strings {
    if s in t then t else t + [s]
  }

  function Lookup(t: Strings, id: nat): Option<bytes> {
    if 1 <= id <= |t| then Some(t[id - 1]) else None
  }

  /** Python's `lookup` takes the reserved id 0 for the empty string. */
  function Resolve(t: Strings, id: nat): Option<bytes> {
    if id == 0 then Some([]) else Lookup(t, id)
  }

  /** Interning gives back the string, keeps every earlier id, and gives equal strings equal ids and
      different strings different ids. */
  lemma InternLaws(t: Strings, s: bytes, u: bytes)
    requires Distinct(t)
    ensures Distinct(After(t, s)) && t <= After(t, s)
    ensures Lookup(After(t, s), IdOf(t, s)) == Some(s)
    ensures IdOf(After(t, s), s) == IdOf(t, s)
    ensures u in t ==> IdOf(After(t, s), u) == IdOf(t, u)
    ensures s != u && u in t ==> IdOf(t, s) != IdOf(t, u)
    ensures s !in t ==> IdOf(t, s) == |t| + 1
  {
    if u in t {
      var i := IndexOf(After(t, s), u);
      assert After(t, s)[IndexOf(t, u)] == u;
    }
  }

  // ---- Block payload ----

  function EncEntries(t: Strings): bytes {
    if t == [] then [] else EncU(|t[0]|) + t[0] + EncEntries(t[1..])
  }

  function DecEntries(n: nat, s: bytes): Parse<Strings> {
    if n == 0 then Ok([], s)
    else
      var (size, s1) :- DecU(s);
      var (str, s2) :- DecSlice(size, s1);
      var (more, rest) :- DecEntries(n - 1, s2);
      Ok([str] + more, rest)
  }

  function EncPayload(t: Strings): bytes {
    EncU(|t|) + EncEntries(t)
  }

  predicate Storable(t: Strings) {
    |t| < WORD && forall i :: 0 <= i < |t| ==> |t[i]| < WORD
  }

  lemma {:induction false} EntriesRoundTrip(t: Strings, tail: bytes)
    requires forall i :: 0 <= i < |t| ==> |t[i]| < WORD
    ensures DecEntries(|t|, EncEntries(t) + tail) == Ok(t, tail)
  {
    hide EncU, DecU;
    if t != [] {
      var later := EncEntries(t[1..]) + tail;
      assert EncEntries(t) + tail == EncU(|t[0]|) + (t[0] + later);
      URoundTrip(|t[0]|, t[0] + later);
      SliceRoundTrip(t[0], later);
      EntriesRoundTrip(t[1..], tail);
      assert [t[0]] + t[1..] == t;
    }
  }

  /** `StringTable` of `_string_table.py`. */
  class StringTable {
    var strToId: map<bytes, nat>
    var idToStr: seq<bytes>

    ghost predicate Valid()
      reads this
    {
      |idToStr| >= 1 && idToStr[0] == [] && Distinct(Contents()) &&
      (forall s :: s in strToId <==> s in Contents()) &&
      (forall s :: s in strToId ==> 1 <= strToId[s] < |idToStr| && idToStr[strToId[s]] == s)
    }

    ghost function Contents(): Strings
      reads this
    {
      if |idToStr| >= 1 then idToStr[1..] else []
    }

    constructor ()
      ensures Valid() && Contents() == []
    {
      strToId, idToStr := map[], [[]];
    }

    method Intern(s: bytes) returns (id: nat)
      requires Valid()
      modifies this
      ensures Valid()
      ensures id == IdOf(old(Contents()), s) && Contents() == After(old(Contents()), s)
    {
      ghost var t := Contents();
      if s in strToId {
        id := strToId[s];
        assert t[id - 1] == s && t[IndexOf(t, s)] == s;
      } else {
        id := |idToStr|;
        strToId, idToStr := strToId[s := id], idToStr + [s];
        assert Contents() == t + [s];
        assert forall i :: 0 <= i < |t| ==> idToStr[i + 1] == t[i];
      }
    }

    method LookupId(id: nat) returns (s: Option<bytes>)
      requires Valid()
      ensures s == Resolve(Contents(), id)
    {
      s := if id >= |idToStr| then None else Some(idToStr[id]);
    }
  }

  // ---- `string_table.c` ----

  /** A slot of the hash table; a null key marks it free. */
  datatype Slot = Free | Used(key: bytes, id: nat)

  /** FNV-1a in 64 bits. */
  function HashFrom(s: bytes, h: nat): nat {
    if s == [] then h else HashFrom(s[1..], Wrap(Xor(h, s[0]) * 1099511628211))
  }

  function Hash(s: bytes): nat {
    HashFrom(s, 1469598103934665603)
  }

  ghost predicate IsPow2(n: nat) {
    exists k: nat :: n == Pow2(k)
  }

  /** With a power of two for a capacity, masking with `cap - 1` takes the remainder. */
  lemma MaskIsRemainder(a: nat, cap: nat)
    requires IsPow2(cap)
    ensures And(a, cap - 1) == a % cap
  {
    var k: nat :| cap == Pow2(k);
    AndMask(a, k);
  }

  lemma Doubled(cap: nat)
    requires IsPow2(cap)
    ensures IsPow2(2 * cap)
  {
    var k: nat :| cap == Pow2(k);
    assert 2 * cap == Pow2(k + 1);
  }

  /** Where the probe for `s` stands after `d` steps. */
  function ProbeAt(s: bytes, d: nat, cap: nat): (i: nat)
    requires 0 < cap && d < cap
    ensures i < cap
  {
    var i := Home(s, cap) + d;
    if i < cap then i else i - cap
  }

  function Home(s: bytes, cap: nat): (i: nat)
    requires 0 < cap
    ensures i < cap
  {
    Hash(s) % cap
  }

  lemma ProbeSteps(s: bytes, d: nat, cap: nat)
    requires d < cap
    ensures ProbeAt(s, 0, cap) == Home(s, cap)
    ensures d + 1 < cap ==>
              ProbeAt(s, d + 1, cap) == if ProbeAt(s, d, cap) + 1 == cap then 0 else ProbeAt(s, d, cap) + 1
  {
    hide Home;
  }

  /** How many steps from a string's own slot to slot `j`. */
  ghost function StepsTo(s: bytes, j: nat, cap: nat): (d: nat)
    requires j < cap
    ensures d < cap && ProbeAt(s, d, cap) == j
    ensures forall e :: 0 <= e < cap && ProbeAt(s, e, cap) == j ==> e == d
  {
    var h := Home(s, cap);
    if j >= h then j - h else j - h + cap
  }

  /** Every slot on the way to slot `j` is taken, so a probe for its key gets there. */
  ghost predicate Reachable(m: seq<Slot>, j: nat)
    requires j < |m| && m[j].Used?
  {
    forall d :: 0 <= d < StepsTo(m[j].key, j, |m|) ==> m[ProbeAt(m[j].key, d, |m|)].Used?
  }

  /** The slots hold exactly the given keys, each once and reachable. */
  ghost predicate Holds(m: seq<Slot>, kv: map<bytes, nat>) {
    && (forall j :: 0 <= j < |m| && m[j].Used? ==> m[j].key in kv && kv[m[j].key] == m[j].id && Reachable(m, j))
    && (forall k :: k in kv ==> exists j :: 0 <= j < |m| && m[j].Used? && m[j].key == k)
    && (forall i, j :: 0 <= i < j < |m| && m[i].Used? && m[j].Used? ==> m[i].key != m[j].key)
  }

  ghost function Keys(m: seq<Slot>): set<bytes> {
    set j | 0 <= j < |m| && m[j].Used? :: m[j].key
  }

  lemma {:induction false} FullKeys(m: seq<Slot>)
    requires forall j :: 0 <= j < |m| ==> m[j].Used?
    requires forall i, j :: 0 <= i < j < |m| && m[i].Used? && m[j].Used? ==> m[i].key != m[j].key
    ensures |Keys(m)| == |m|
    decreases |m|
  {
    if m != [] {
      var n := |m| - 1;
      FullKeys(m[..n]);
      assert Keys(m) == Keys(m[..n]) + {m[n].key};
    }
  }

  /** With fewer keys than slots some slot is free: a probe always stops. */
  lemma FreeSlotExists(m: seq<Slot>, kv: map<bytes, nat>)
    requires Holds(m, kv) && |kv| < |m|
    ensures exists j :: 0 <= j < |m| && m[j].Free?
  {
    assert |kv.Keys| == |kv|;
    if forall j :: 0 <= j < |m| ==> m[j].Used? {
      FullKeys(m);
      L.SubsetSize(Keys(m), kv.Keys);
    }
  }

  /** The probe for a key of the table passes taken slots only and ends on it. */
  lemma ProbeFinds(m: seq<Slot>, kv: map<bytes, nat>, s: bytes) returns (d: nat)
    requires Holds(m, kv) && s in kv
    ensures d < |m| && m[ProbeAt(s, d, |m|)].Used? && m[ProbeAt(s, d, |m|)].key == s
    ensures forall e :: 0 <= e < d ==> m[ProbeAt(s, e, |m|)].Used?
  {
    var j :| 0 <= j < |m| && m[j].Used? && m[j].key == s;
    assert Reachable(m, j);
    d := StepsTo(s, j, |m|);
  }

  /** A probe that meets a free slot has shown that its key is not in the table. */
  lemma FreeMeansAbsent(m: seq<Slot>, kv: map<bytes, nat>, s: bytes, d: nat)
    requires Holds(m, kv) && d < |m| && m[ProbeAt(s, d, |m|)].Free?
    requires forall e :: 0 <= e < d ==> m[ProbeAt(s, e, |m|)].Used? && m[ProbeAt(s, e, |m|)].key != s
    ensures s !in kv
  {
    hide Holds, ProbeAt;
    if s in kv {
      var e := ProbeFinds(m, kv, s);
    }
  }

  lemma MaskedHome(s: bytes, cap: nat)
    requires IsPow2(cap) && 0 < cap
    ensures And(Hash(s), cap - 1) == Home(s, cap)
  {
    hide Hash, And;
    MaskIsRemainder(Hash(s), cap);
  }

  lemma MaskedStep(i: nat, cap: nat)
    requires IsPow2(cap) && i < cap
    ensures And(i + 1, cap - 1) == if i + 1 == cap then 0 else i + 1
  {
    hide And, IsPow2;
    MaskIsRemainder(i + 1, cap);
    if i + 1 == cap {
      DivUnique(i + 1, cap, 1, 0);
    } else {
      DivUnique(i + 1, cap, 0, i + 1);
    }
  }

  /** Filling the first free slot of a new key's probe keeps every key reachable. */
  lemma FillKeeps(m: seq<Slot>, kv: map<bytes, nat>, s: bytes, id: nat, d: nat)
    requires Holds(m, kv) && s !in kv && d < |m| && m[ProbeAt(s, d, |m|)].Free?
    requires forall e :: 0 <= e < d ==> m[ProbeAt(s, e, |m|)].Used?
    ensures Holds(m[ProbeAt(s, d, |m|) := Used(s, id)], kv[s := id])
  {
    hide Hash, ProbeAt;
    var p := ProbeAt(s, d, |m|);
    var m' := m[p := Used(s, id)];
    assert d == StepsTo(s, p, |m|);
    forall j | 0 <= j < |m'| && m'[j].Used?
      ensures Reachable(m', j)
    {
      if j != p {
        assert Reachable(m, j);
      }
    }
    var kv' := kv[s := id];
    forall k | k in kv'
      ensures exists j :: 0 <= j < |m'| && m'[j].Used? && m'[j].key == k
    {
      if k == s {
        assert m'[p].key == k;
      } else {
        var j :| 0 <= j < |m| && m[j].Used? && m[j].key == k;
        assert m'[j].key == k;
      }
    }
  }

  /** The keys in the first `i` slots. */
  ghost function Entries(m: seq<Slot>, i: nat): map<bytes, nat>
    requires i <= |m|
  {
    if i == 0 then map[]
    else if m[i - 1].Used? then Entries(m, i - 1)[m[i - 1].key := m[i - 1].id]
    else Entries(m, i - 1)
  }

  lemma NothingHeld(m: seq<Slot>)
    requires forall j :: 0 <= j < |m| ==> m[j].Free?
    ensures Holds(m, map[])
  {
  }

  lemma {:induction false} EntryFrom(m: seq<Slot>, i: nat, k: bytes)
    requires i <= |m|
    ensures k in Entries(m, i) <==> exists j :: 0 <= j < i && m[j].Used? && m[j].key == k
  {
    if i > 0 {
      EntryFrom(m, i - 1, k);
    }
  }

  lemma {:induction false} EntriesAgree(m: seq<Slot>, kv: map<bytes, nat>, i: nat)
    requires Holds(m, kv) && i <= |m|
    ensures forall k :: k in Entries(m, i) ==> k in kv && Entries(m, i)[k] == kv[k]
  {
    if i > 0 {
      EntriesAgree(m, kv, i - 1);
    }
  }

  /** Walking the slots meets every key once: a key is new when its slot is reached, and at the end
      all keys have been met. */
  lemma EntriesOf(m: seq<Slot>, kv: map<bytes, nat>, i: nat)
    requires Holds(m, kv) && i <= |m|
    ensures i < |m| && m[i].Used? ==> m[i].key !in Entries(m, i)
    ensures |Entries(m, i)| <= |kv|
    ensures i == |m| ==> Entries(m, i) == kv
  {
    hide Reachable;
    EntriesAgree(m, kv, i);
    L.SubsetSize(Entries(m, i).Keys, kv.Keys);
    assert |Entries(m, i).Keys| == |Entries(m, i)| && |kv.Keys| == |kv|;
    if i < |m| && m[i].Used? {
      EntryFrom(m, i, m[i].key);
    }
    if i == |m| {
      forall k | k in kv
        ensures k in Entries(m, i)
      {
        EntryFrom(m, i, k);
      }
    }
  }

  /** The dictionary a list of strings stands for. */
  ghost function Index(t: Strings): map<bytes, nat> {
    map s | s in t :: IndexOf(t, s) + 1
  }

  lemma {:induction false} IndexSize(t: Strings)
    requires Distinct(t)
    ensures |Index(t)| == |t|
  {
    assert Index(t).Keys == set s | s in t;
    SetOfSize(t);
  }

  lemma {:induction false} SetOfSize(t: Strings)
    requires Distinct(t)
    ensures |set s | s in t| == |t|
    decreases |t|
  {
    if t != [] {
      var n := |t| - 1;
      SetOfSize(t[..n]);
      assert (set s | s in t) == (set s | s in t[..n]) + {t[n]};
    }
  }

  /** `trl_string_table_t`.  Slot 0 of `id_to_str` is never used, so the list starts at id 1. */
  class NativeTable {
    var slots: array<Slot>
    var slotCount: nat
    var strings: seq<bytes>

    ghost predicate Valid()
      reads this, slots
    {
      && Distinct(strings) && slotCount == |strings|
      && (slots.Length == 0 ==> strings == [])
      && (slots.Length > 0 ==> slots.Length >= 32 && IsPow2(slots.Length) && slotCount * 10 < slots.Length * 7)
      && Holds(slots[..], Index(strings))
    }

    constructor ()
      ensures Valid() && strings == [] && fresh(slots)
    {
      slots := new Slot[0];
      slotCount, strings := 0, [];
    }

    /** The probe of both loops: from the hash on, past taken slots, to the key or the first free
        slot.  The rehash never meets its key, because old keys differ. */
    static method Probe(slots: array<Slot>, s: bytes, ghost kv: map<bytes, nat>) returns (idx: nat, ghost d: nat)
      requires Holds(slots[..], kv) && |kv| < slots.Length && IsPow2(slots.Length)
      ensures d < slots.Length && idx == ProbeAt(s, d, slots.Length)
      ensures forall e :: 0 <= e < d ==> slots[ProbeAt(s, e, slots.Length)].Used?
      ensures slots[idx].Used? ==> slots[idx].key == s && s in kv && slots[idx].id == kv[s]
      ensures slots[idx].Free? ==> s !in kv
    {
      hide Hash, Home, ProbeAt, Holds, IsPow2, And;
      var cap := slots.Length;
      MaskedHome(s, cap);
      idx := And(Hash(s), cap - 1);
      d := 0;
      ProbeSteps(s, 0, cap);
      ghost var m := slots[..];
      FreeSlotExists(m, kv);
      ghost var f :| 0 <= f < cap && m[f].Free?;
      ghost var stop := StepsTo(s, f, cap);
      while slots[idx].Used? && slots[idx].key != s
        invariant d <= stop && idx == ProbeAt(s, d, cap)
        invariant forall e :: 0 <= e < d ==> m[ProbeAt(s, e, cap)].Used? && m[ProbeAt(s, e, cap)].key != s
        decreases stop - d
      {
        assert d != stop;
        ProbeSteps(s, d, cap);
        MaskedStep(idx, cap);
        idx := And(idx + 1, cap - 1);
        d := d + 1;
      }
      if slots[idx].Free? {
        FreeMeansAbsent(m, kv, s, d);
      } else {
        HeldSlot(m, kv, idx);
      }
    }

    static lemma HeldSlot(m: seq<Slot>, kv: map<bytes, nat>, j: nat)
      requires Holds(m, kv) && j < |m| && m[j].Used?
      ensures m[j].key in kv && kv[m[j].key] == m[j].id
    {
    }

    /** Puts a key that is not in the table into the first free slot of its probe. */
    static method Reinsert(slots: array<Slot>, slot: Slot, ghost kv: map<bytes, nat>)
      requires slot.Used? && slot.key !in kv && Holds(slots[..], kv) && |kv| < slots.Length && IsPow2(slots.Length)
      modifies slots
      ensures Holds(slots[..], kv[slot.key := slot.id])
    {
      hide Hash, ProbeAt, Holds;
      var idx, d := Probe(slots, slot.key, kv);
      ghost var before := slots[..];
      FillKeeps(before, kv, slot.key, slot.id, d);
      slots[idx] := slot;
      assert slots[..] == before[idx := slot];
    }

    /** `trl_string_table_rehash`: every old entry finds its place in a larger table. */
    method Rehash(newCap: nat)
      requires Valid() && newCap >= 32 && IsPow2(newCap) && slotCount * 10 < newCap * 7
      modifies this
      ensures Valid() && fresh(slots) && slots.Length == newCap
      ensures strings == old(strings) && slotCount == old(slotCount)
    {
      hide Hash, ProbeAt, Reachable, Holds, Index, IndexOf;
      var prior := slots;
      var larger := new Slot[newCap](_ => Free);
      ghost var m, all := slots[..], Index(strings);
      IndexSize(strings);
      NothingHeld(larger[..]);
      for i := 0 to prior.Length
        invariant prior[..] == m && Holds(larger[..], Entries(m, i))
        invariant strings == old(strings) && slotCount == old(slotCount)
      {
        EntriesOf(m, all, i);
        if prior[i].Used? {
          Reinsert(larger, prior[i], Entries(m, i));
        }
      }
      EntriesOf(m, all, prior.Length);
      slots := larger;
    }

    /** `trl_string_table_intern`: the same ids as the dictionary-and-list table gives. */
    method Intern(s: bytes) returns (id: nat)
      requires Valid() && |strings| < 0xFFFF_FFFE
      modifies this, slots
      ensures Valid() && (slots == old(slots) || fresh(slots))
      ensures id == IdOf(old(strings), s) && strings == After(old(strings), s)
    {
      hide Hash, ProbeAt, Reachable, Holds, Index, IndexOf;
      if slots.Length == 0 {
        assert Pow2(5) == 32;
        Rehash(32);
      } else if (slotCount + 1) * 10 >= slots.Length * 7 {
        Doubled(slots.Length);
        Rehash(slots.Length * 2);
      }
      ghost var kv := Index(strings);
      IndexSize(strings);
      var idx, d := Probe(slots, s, kv);
      IndexMeans(strings, s);
      if slots[idx].Used? {
        return slots[idx].id;
      }
      id := |strings| + 1;
      FillKeeps(slots[..], kv, s, id, d);
      ghost var before := slots[..];
      slots[idx] := Used(s, id);
      assert slots[..] == before[idx := Used(s, id)];
      IndexAfter(strings, s);
      strings := strings + [s];
      slotCount := slotCount + 1;
    }

    static lemma IndexMeans(t: Strings, s: bytes)
      ensures s in Index(t) <==> s in t
      ensures s in t ==> Index(t)[s] == IdOf(t, s)
    {
    }

    static lemma IndexAfter(t: Strings, s: bytes)
      requires Distinct(t) && s !in t
      ensures Index(t + [s]) == Index(t)[s := |t| + 1] && Distinct(t + [s])
    {
      var t' := t + [s];
      forall u | u in t'
        ensures IndexOf(t', u) == if u == s then |t| else IndexOf(t, u)
      {
        SameIndex(t, s, u);
      }
      hide IndexOf;
      assert forall u :: u in t' <==> u in t || u == s;
    }

    static lemma SameIndex(t: Strings, s: bytes, u: bytes)
      requires Distinct(t) && s !in t && u in t + [s]
      ensures IndexOf(t + [s], u) == if u == s then |t| else IndexOf(t, u)
    {
      var t' := t + [s];
      var i := IndexOf(t', u);
      assert t'[i] == u;
      if u != s {
        assert u in t;
        var j := IndexOf(t, u);
        assert t'[j] == u && (i < |t| ==> t[i] == u);
      }
    }

    method LookupId(id: nat) returns (s: Option<bytes>)
      requires Valid()
      ensures s == Lookup(strings, id)
    {
      s := if id == 0 || id > |strings| then None else Some(strings[id - 1]);
    }

    method EncodePayload() returns (out: bytes)
      requires Valid()
      ensures out == EncPayload(strings)
    {
      hide EncU;
      out := EncU(|strings|);
      assert strings[0..] == strings;
      for i := 0 to |strings|
        invariant out + EncEntries(strings[i..]) == EncPayload(strings)
      {
        var item := EncU(|strings[i]|) + strings[i];
        assert strings[i..][1..] == strings[i + 1..];
        assert out + (item + EncEntries(strings[i + 1..])) == (out + item) + EncEntries(strings[i + 1..]);
        out := out + item;
      }
      assert out + [] == out;
    }

    /** `trl_string_table_decode_payload` on an uncompressed payload: every entry is interned. */
    method DecodePayload(data: bytes) returns (ok: bool)
      requires Valid() && (DecU(data).Ok? ==> |strings| + Wrap(DecU(data).value) < 0xFFFF_FFFE)
      modifies this, slots
      ensures Valid()
      ensures ok == DecPayload(data).Ok?
      ensures ok ==> strings == AfterAll(old(strings), DecPayload(data).value)
    {
      hide DecU, Valid, After;
      var count := DecU(data);
      if count.Fail? {
        return false;
      }
      ghost var base := strings;
      var rest := count.rest;
      var n: nat := Wrap(count.value);
      for i := 0 to n
        invariant Valid() && (slots == old(slots) || fresh(slots)) && |strings| <= |base| + i
        invariant match DecStrict(n - i, rest)
                  case Fail(_) => DecPayload(data).Fail?
                  case Ok(more, _) => DecPayload(data).Ok? && AfterAll(base, DecPayload(data).value) == AfterAll(strings, more)
      {
        var size := DecU(rest);
        if size.Fail? || Wrap(size.value) > |size.rest| {
          return false;
        }
        var s := CString(size.rest[..Wrap(size.value)]);
        rest := size.rest[Wrap(size.value)..];
        AfterGrows(strings, s);
        var id := Intern(s);
      }
      ok := true;
    }

    static lemma AfterGrows(t: Strings, s: bytes)
      ensures |After(t, s)| <= |t| + 1
    {
    }
  }

  /** A C string ends at its first NUL byte. */
  function CString(s: bytes): bytes {
    if s == [] || s[0] == 0 then [] else [s[0]] + CString(s[1..])
  }

  /** As `DecEntries`, but with lengths of 64 bits, and an entry that runs past the end is an error. */
  function DecStrict(n: nat, s: bytes): Parse<Strings> {
    if n == 0 then Ok([], s)
    else
      var (stated, s1) :- DecU(s);
      var size := Wrap(stated);
      if size > |s1| then Fail(Corrupt)
      else
        var (more, rest) :- DecStrict(n - 1, s1[size..]);
        Ok([CString(s1[..size])] + more, rest)
  }

  function DecPayload(data: bytes): Parse<Strings> {
    var (n, s) :- DecU(data);
    DecStrict(Wrap(n), s)
  }

  function AfterAll(t: Strings, more: Strings): Strings
    decreases |more|
  {
    if more == [] then t else AfterAll(After(t, more[0]), more[1..])
  }

  lemma {:induction false} CStringWhole(s: bytes)
    requires 0 !in s
    ensures CString(s) == s
  {
    if s != [] {
      CStringWhole(s[1..]);
      assert [s[0]] + s[1..] == s;
    }
  }

  lemma {:induction false} StrictRoundTrip(t: Strings, tail: bytes)
    requires forall i :: 0 <= i < |t| ==> |t[i]| < WORD && 0 !in t[i]
    ensures DecStrict(|t|, EncEntries(t) + tail) == Ok(t, tail)
  {
    hide EncU, DecU, CString;
    if t != [] {
      var later := EncEntries(t[1..]) + tail;
      assert EncEntries(t) + tail == EncU(|t[0]|) + (t[0] + later);
      URoundTrip(|t[0]|, t[0] + later);
      SliceRoundTrip(t[0], later);
      CStringWhole(t[0]);
      StrictRoundTrip(t[1..], tail);
      assert [t[0]] + t[1..] == t;
    }
  }

  lemma {:induction false} AfterAllDistinct(t: Strings, more: Strings)
    requires Distinct(t + more)
    ensures AfterAll(t, more) == t + more
    decreases |more|
  {
    if more != [] {
      var t' := t + [more[0]];
      assert t' + more[1..] == t + more;
      assert more[0] !in t by {
        assert forall i :: 0 <= i < |t| ==> (t + more)[i] == t[i];
        assert (t + more)[|t|] == more[0];
      }
      AfterAllDistinct(t', more[1..]);
    } else {
      assert t + more == t;
    }
  }

  lemma NativeTableRoundTrip(t: Strings)
    requires Distinct(t) && Storable(t) && forall i :: 0 <= i < |t| ==> 0 !in t[i]
    ensures DecPayload(EncPayload(t)) == Ok(t, []) && AfterAll([], t) == t
  {
    hide EncU, DecU, EncEntries, DecStrict, AfterAll, Distinct;
    var entries := EncEntries(t);
    URoundTrip(|t|, entries);
    StrictRoundTrip(t, []);
    assert entries + [] == entries && Wrap(|t|) == |t|;
    assert [] + t == t;
    AfterAllDistinct([], t);
  }

  /** Writing a table out and reading it into a fresh one gives every string its old id, in both
      implementations, and both write the same bytes. */
  lemma TableRoundTrip(t: Strings)
    requires Distinct(t) && Storable(t)
    ensures DecU(EncPayload(t)) == Ok(|t|, EncEntries(t)) && DecEntries(|t|, EncEntries(t)) == Ok(t, [])
    ensures (forall i :: 0 <= i < |t| ==> 0 !in t[i]) ==>
              DecPayload(EncPayload(t)) == Ok(t, []) && AfterAll([], t) == t
  {
    hide EncU, DecU, EncEntries, DecEntries, DecStrict, AfterAll;
    URoundTrip(|t|, EncEntries(t));
    EntriesRoundTrip(t, []);
    assert EncEntries(t) + [] == EncEntries(t);
    if forall i :: 0 <= i < |t| ==> 0 !in t[i] {
      NativeTableRoundTrip(t);
    }
  }
}
