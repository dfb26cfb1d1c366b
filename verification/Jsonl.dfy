/**
 The append-only log behind each dictionary of the durable store (app/cases/store.py), line by
 line: a line is blank, unparsable, or a record. Loading re-validates every record.
 */
module Jsonl {
  import opened Wrappers
  import opened Dicts
  import opened Models
  import opened Lifecycle
  import Firsts
  import LhpTokens
  import Lhp = LhpHandoff

  datatype Line<+V> = Blank | Garbage | Record(v: V)

  /** Complete lines, and whether an unterminated unparsable tail follows them. */
  datatype File<+V> = File(lines: seq<Line<V>>, torn: bool)

  /** Appending after a torn tail completes that tail's line, which stays unparsable. */
  function Append<V>(f: File<V>, v: V): File<V> {
    File(f.lines + [if f.torn then Garbage else Record(v)], false)
  }

  function AppendAll<V>(f: File<V>, vs: seq<V>): File<V> {
    if vs == [] then f else Append(AppendAll(f, vs[..|vs| - 1]), vs[|vs| - 1])
  }

  /** The last write of every id wins; lines that hold no record are skipped. */
  function Load<K(==), V>(lines: seq<Line<V>>, key: V -> K, revalidate: V -> V): Dict<K, V> {
    if lines == [] then Empty<K, V>()
    else
      var before := Load(lines[..|lines| - 1], key, revalidate);
      match lines[|lines| - 1]
      case Record(v) => before.Put(key(revalidate(v)), revalidate(v))
      case _ => before
  }

  /** The in-memory dictionary after a series of writes. */
  function Remember<K(==), V>(writes: seq<V>, key: V -> K): Dict<K, V> {
    if writes == [] then Empty<K, V>()
    else
      var v := writes[|writes| - 1];
      Remember(writes[..|writes| - 1], key).Put(key(v), v)
  }

  function KeysOf<K, V>(writes: seq<V>, key: V -> K): seq<K> {
    seq(|writes|, i requires 0 <= i < |writes| => key(writes[i]))
  }

  /** The dictionary is in the order of the first write under every id. */
  lemma {:induction false} RememberOrder<K, V>(writes: seq<V>, key: V -> K)
    ensures Remember(writes, key).keys == Firsts.Distinct(KeysOf(writes, key))
  {
    if writes != [] {
      var n := |writes| - 1;
      RememberOrder(writes[..n], key);
      assert KeysOf(writes, key) == KeysOf(writes[..n], key) + [key(writes[n])];
      Firsts.DistinctSnoc(KeysOf(writes[..n], key), key(writes[n]));
    }
  }

  /** And it holds the last. */
  lemma {:induction false} RememberHolds<K, V>(writes: seq<V>, key: V -> K, k: K)
    ensures k in Remember(writes, key).m <==> k in KeysOf(writes, key)
    ensures k in KeysOf(writes, key) ==> exists i :: LastUnder(writes, key, k, i) && Remember(writes, key).m[k] == writes[i]
  {
    if writes != [] {
      var n := |writes| - 1;
      assert KeysOf(writes, key) == KeysOf(writes[..n], key) + [key(writes[n])];
      if k == key(writes[n]) {
        assert LastUnder(writes, key, k, n);
      } else {
        RememberHolds(writes[..n], key, k);
        if k in KeysOf(writes[..n], key) {
          var i :| LastUnder(writes[..n], key, k, i) && Remember(writes[..n], key).m[k] == writes[..n][i];
          LastUnderFront(writes, key, k, i);
        }
      }
    }
  }

  lemma LastUnderFront<K, V>(writes: seq<V>, key: V -> K, k: K, i: int)
    requires writes != [] && k != key(writes[|writes| - 1])
    ensures LastUnder(writes, key, k, i) <==> LastUnder(writes[..|writes| - 1], key, k, i)
  {
  }

  /** Write `i` is the last one under `k`. */
  ghost predicate LastUnder<K, V>(writes: seq<V>, key: V -> K, k: K, i: int) {
    0 <= i < |writes| && key(writes[i]) == k && forall j | i < j < |writes| :: key(writes[j]) != k
  }

  /** Re-validation keeps the id of every written record. */
  ghost predicate KeepsKeys<K, V>(writes: seq<V>, key: V -> K, revalidate: V -> V) {
    forall i | 0 <= i < |writes| :: key(revalidate(writes[i])) == key(writes[i])
  }

  predicate Unreadable<V>(lines: seq<Line<V>>) {
    forall i | 0 <= i < |lines| :: !lines[i].Record?
  }

  /** The lines that a series of writes appends to a file without a torn tail. */
  function LinesOf<V>(writes: seq<V>): seq<Line<V>> {
    seq(|writes|, i requires 0 <= i < |writes| => Record(writes[i]))
  }

  lemma {:induction false} AppendAllLines<V>(f: File<V>, vs: seq<V>)
    requires !f.torn
    ensures AppendAll(f, vs) == File(f.lines + LinesOf(vs), false)
  {
    if vs == [] {
      assert f.lines + LinesOf(vs) == f.lines;
    } else {
      var n := |vs| - 1;
      AppendAllLines(f, vs[..n]);
      assert LinesOf(vs) == LinesOf(vs[..n]) + [Record(vs[n])];
    }
  }

  lemma {:induction false} AppendAllTorn<V>(lines: seq<Line<V>>, v: V, vs: seq<V>)
    ensures AppendAll(File(lines, true), [v] + vs) == File(lines + [Garbage] + LinesOf(vs), false)
  {
    if vs == [] {
      assert [v] + vs == [v] && [v][..0] == [];
      assert lines + [Garbage] + LinesOf(vs) == lines + [Garbage];
    } else {
      var n := |vs| - 1;
      assert ([v] + vs)[..n + 1] == [v] + vs[..n];
      AppendAllTorn(lines, v, vs[..n]);
      assert LinesOf(vs) == LinesOf(vs[..n]) + [Record(vs[n])];
    }
  }

  lemma PutMapValues<K, V>(d: Dict<K, V>, k: K, v: V, f: V -> V)
    ensures MapValues(d.Put(k, v), f) == MapValues(d, f).Put(k, f(v))
  {
    assert MapValues(d.Put(k, v), f).m == MapValues(d, f).Put(k, f(v)).m;
  }

  lemma {:induction false} LoadSkipsUnreadable<K, V>(lines: seq<Line<V>>, tail: seq<Line<V>>, key: V -> K, revalidate: V -> V)
    requires Unreadable(tail)
    ensures Load(lines + tail, key, revalidate) == Load(lines, key, revalidate)
  {
    if tail == [] {
      assert lines + tail == lines;
    } else {
      var n := |tail| - 1;
      assert (lines + tail)[..|lines| + n] == lines + tail[..n];
      LoadSkipsUnreadable(lines, tail[..n], key, revalidate);
    }
  }

  /** Reloading what was written gives the in-memory dictionary, order included, with every record re-validated. */
  lemma {:induction false} ReloadMeaning<K, V>(writes: seq<V>, key: V -> K, revalidate: V -> V)
    requires KeepsKeys(writes, key, revalidate)
    ensures Load(LinesOf(writes), key, revalidate) == MapValues(Remember(writes, key), revalidate)
  {
    if writes != [] {
      var n := |writes| - 1;
      ReloadMeaning(writes[..n], key, revalidate);
      PutMapValues(Remember(writes[..n], key), key(writes[n]), writes[n], revalidate);
      assert LinesOf(writes)[..n] == LinesOf(writes[..n]);
    }
  }

  /** Reloading gives exactly the in-memory dictionary if and only if every surviving record is stable. */
  lemma ReloadExactIff<K, V>(writes: seq<V>, key: V -> K, revalidate: V -> V)
    requires KeepsKeys(writes, key, revalidate)
    ensures Load(LinesOf(writes), key, revalidate) == Remember(writes, key)
       <==> (forall k | k in Remember(writes, key).m :: revalidate(Remember(writes, key).m[k]) == Remember(writes, key).m[k])
  {
    ReloadMeaning(writes, key, revalidate);
    var d := Remember(writes, key);
    if forall k | k in d.m :: revalidate(d.m[k]) == d.m[k] {
      assert MapValues(d, revalidate).m == d.m;
    }
  }

  /** A crash that loses any suffix of whole lines, whatever unreadable lines it leaves behind,
      recovers exactly what a prefix of the writes had built. */
  lemma CrashRecoversPrefix<K, V>(writes: seq<V>, kept: nat, tail: seq<Line<V>>, key: V -> K, revalidate: V -> V)
    requires kept <= |writes| && KeepsKeys(writes, key, revalidate) && Unreadable(tail)
    ensures Load(LinesOf(writes)[..kept] + tail, key, revalidate) == MapValues(Remember(writes[..kept], key), revalidate)
  {
    assert LinesOf(writes)[..kept] == LinesOf(writes[..kept]);
    ReloadMeaning(writes[..kept], key, revalidate);
    LoadSkipsUnreadable(LinesOf(writes[..kept]), tail, key, revalidate);
  }

  /** What one more line does to a load. */
  function LoadLine<K(==), V>(d: Dict<K, V>, line: Line<V>, key: V -> K, revalidate: V -> V): Dict<K, V> {
    match line
    case Record(v) => d.Put(key(revalidate(v)), revalidate(v))
    case _ => d
  }

  lemma LoadSnoc<K, V>(lines: seq<Line<V>>, line: Line<V>, key: V -> K, revalidate: V -> V)
    ensures Load(lines + [line], key, revalidate) == LoadLine(Load(lines, key, revalidate), line, key, revalidate)
  {
    assert (lines + [line])[..|lines|] == lines;
  }

  lemma {:induction false} LoadSkipsBetween<K, V>(lines: seq<Line<V>>, more: seq<Line<V>>, key: V -> K, revalidate: V -> V)
    ensures Load(lines + [Garbage] + more, key, revalidate) == Load(lines + more, key, revalidate)
  {
    hide Load;
    if more == [] {
      assert lines + [Garbage] + more == lines + [Garbage] && lines + more == lines;
      LoadSnoc(lines, Garbage, key, revalidate);
    } else {
      var front, last := more[..|more| - 1], more[|more| - 1];
      LoadSkipsBetween(lines, front, key, revalidate);
      LoadSnoc(lines + [Garbage] + front, last, key, revalidate);
      LoadSnoc(lines + front, last, key, revalidate);
      assert lines + [Garbage] + more == lines + [Garbage] + front + [last];
      assert lines + more == lines + front + [last];
    }
  }

  /** After a torn tail the first append is lost: the next load sees the file without that write. */
  lemma TornTailSwallowsOneWrite<K, V>(lines: seq<Line<V>>, v: V, vs: seq<V>, key: V -> K, revalidate: V -> V)
    ensures Load(AppendAll(File(lines, true), [v] + vs).lines, key, revalidate)
         == Load(AppendAll(File(lines, false), vs).lines, key, revalidate)
  {
    AppendAllTorn(lines, v, vs);
    AppendAllLines(File(lines, false), vs);
    LoadSkipsBetween(lines, LinesOf(vs), key, revalidate);
  }

  /** One dictionary of the store together with its file. */
  class JsonlTable<K(==), V> {
    const key: V -> K
    const revalidate: V -> V
    var entries: Dict<K, V>
    var file: File<V>

    /** Memory and a reload have the same ids in the same order, and each reloaded record is the
        one in memory, re-validated if it was written since the table was opened. */
    ghost predicate Agrees()
      reads this
    {
      var disk := Load(file.lines, key, revalidate);
      && disk.keys == entries.keys
      && forall k | k in entries.m :: k in disk.m && (disk.m[k] == entries.m[k] || disk.m[k] == revalidate(entries.m[k]))
    }

    /** Opening reads the file line by line. */
    constructor Open(file: File<V>, key: V -> K, revalidate: V -> V)
      ensures this.file == file && this.key == key && this.revalidate == revalidate
      ensures entries == Load(file.lines, key, revalidate)
      ensures Agrees()
    {
      this.file, this.key, this.revalidate := file, key, revalidate;
      entries := Empty<K, V>();
      new;
      for i := 0 to |file.lines|
        invariant this.file == file && this.key == key && this.revalidate == revalidate
        invariant entries == Load(file.lines[..i], key, revalidate)
      {
        assert file.lines[..i + 1][..i] == file.lines[..i];
        match file.lines[i]
        case Record(v) => entries := entries.Put(key(revalidate(v)), revalidate(v));
        case _ =>
      }
      assert file.lines[..|file.lines|] == file.lines;
    }

    /** A write goes to memory and to the end of the file; agreement survives unless the tail was torn. */
    method Put(v: V)
      requires key(revalidate(v)) == key(v)
      modifies this
      ensures entries == old(entries).Put(key(v), v)
      ensures file == Append(old(file), v)
      ensures old(Agrees()) && !old(file.torn) ==> Agrees()
    {
      entries := entries.Put(key(v), v);
      file := Append(file, v);
      assert file.lines[..|file.lines| - 1] == old(file).lines;
    }

    method Get(k: K) returns (r: Option<V>)
      ensures r == entries.Get(k)
    {
      r := entries.Get(k);
    }
  }

  // --- which records are stable ---

  function HandoffOnReload(h: Handoff): Handoff {
    h.(handoffId := LhpTokens.SanitizeToken(h.handoffId, Lhp.ID_LIMIT),
       caseId := LhpTokens.SanitizeToken(h.caseId, Lhp.ID_LIMIT),
       objectiveKey := LhpTokens.SanitizeToken(h.objectiveKey, Lhp.ID_LIMIT),
       idempotencyKey := LhpTokens.SanitizeToken(h.idempotencyKey, Lhp.ID_LIMIT),
       fingerprint := LhpTokens.SanitizeToken(h.fingerprint, Lhp.ID_LIMIT),
       traceId := LhpTokens.SanitizeToken(h.traceId, Lhp.ID_LIMIT))
  }

  /** A fresh handoff is not stable: its empty trace id, a default no validator saw, reloads as
      `unknown`. One reload settles the record. */
  lemma HandoffSettlesAfterOneReload(f: Finding, c: SecurityCase, passes: nat, stamp: Stamp)
    requires BuildHandoff(f, c, passes, stamp).Ok?
    ensures var h := BuildHandoff(f, c, passes, stamp).value.handoff;
            && HandoffOnReload(h) != h
            && HandoffOnReload(h).traceId == "unknown"
            && HandoffOnReload(HandoffOnReload(h)) == HandoffOnReload(h)
            && HandoffOnReload(h).idempotencyKey == h.idempotencyKey
            && HandoffOnReload(h).status == h.status
  {
    hide HandoffReady, IdempotencyKey;
    var h := BuildHandoff(f, c, passes, stamp).value.handoff;
    LhpTokens.TokenIdempotent(h.handoffId, Lhp.ID_LIMIT);
    LhpTokens.TokenIdempotent(h.caseId, Lhp.ID_LIMIT);
    LhpTokens.TokenIdempotent(h.objectiveKey, Lhp.ID_LIMIT);
    LhpTokens.TokenIdempotent(h.idempotencyKey, Lhp.ID_LIMIT);
    LhpTokens.TokenIdempotent(h.fingerprint, Lhp.ID_LIMIT);
    LhpTokens.TokenIdempotent(h.traceId, Lhp.ID_LIMIT);
    StoredKeyIsToken(c.caseId, f);
    assert LhpTokens.SanitizeToken("", Lhp.ID_LIMIT) == "unknown";
    hide LhpTokens.SanitizeToken;
  }

  lemma StoredKeyIsToken(caseId: string, f: Finding)
    ensures LhpTokens.SanitizeToken(IdempotencyKey(caseId, f), Lhp.ID_LIMIT) == IdempotencyKey(caseId, f)
  {
    LhpTokens.TokenIdempotent(caseId + ":engineering:" + OrElse(f.objectiveKey, f.checkId) + ":v1", Lhp.ID_LIMIT);
  }
}
