/** The change table and the two operations over it: `_apply_delta_changes`
    (add each unit delta once more) and `_revert_delta_changes` (write each
    recorded original value back). Both walk the table object by object and,
    inside each object, property by property; an exception from `getattr`,
    `setattr` or `Units.Quantity` stops the walk where it is, leaving the
    properties already written as they are. */
module Changes {
  import opened Base
  import opened FreeCadDocument

  /** The user type under which a change is applied; every other type is skipped. */
  const USERTYPE_UNIT := "Unit"

  /** One property's entry in the change table. `quantity` is what
      `Units.Quantity(val)` yields for the entered text (None when it raises,
      or when the sum with the current value does); `orig` is the value recorded
      when the table was read, as the text `str(getattr(obj, prop))`, which
      the model assumes `setattr` accepts when it is written back (see
      README, Left out). */
  datatype PropChange = PropChange(prop: string, userType: string, quantity: Option<int>, orig: int)

  /** The changes to one object, in the order of the inner dictionary. */
  datatype ObjectChanges = ObjectChanges(objName: string, props: seq<PropChange>)

  /** `changes_dict`: object name -> property name -> change, in insertion order. */
  type ChangeTable = seq<ObjectChanges>

  /** One (object, property) change, in the order both loops visit them. */
  datatype Entry = Entry(key: Key, change: PropChange)

  function Rows(objName: string, ps: seq<PropChange>): seq<Entry> {
    seq(|ps|, k requires 0 <= k < |ps| => Entry((objName, ps[k].prop), ps[k]))
  }

  /** The entries of the table in visiting order. */
  function Flatten(t: ChangeTable): seq<Entry> {
    if t == [] then [] else Flatten(t[..|t| - 1]) + Rows(t[|t| - 1].objName, t[|t| - 1].props)
  }

  /** A store after a walk, and the exception that stopped the walk, if any. */
  datatype Applied = Applied(store: Store, raised: Option<Exception>)

  // ---------------------------------------------------------------- apply

  /** One iteration of the inner loop of `_apply_delta_changes`. */
  function ApplyEntry(s: Store, e: Entry): Applied {
    if e.key !in s then Applied(s, Some(AttributeError(e.key)))
    else if e.change.userType != USERTYPE_UNIT then Applied(s, None)
    else match e.change.quantity
      case None => Applied(s, Some(QuantityError(e.key)))
      case Some(q) => Applied(s[e.key := s[e.key] + q], None)
  }

  /** The entries applied in order, stopping at the first exception. */
  function ApplyEntries(s: Store, es: seq<Entry>): (r: Applied)
    ensures r.store.Keys == s.Keys
  {
    if es == [] then Applied(s, None)
    else
      var a := ApplyEntries(s, es[..|es| - 1]);
      if a.raised.Some? then a else ApplyEntry(a.store, es[|es| - 1])
  }

  function ApplyChanges(s: Store, t: ChangeTable): Applied {
    ApplyEntries(s, Flatten(t))
  }

  /** What one application adds to property `k`: the quantities of the unit
      entries for `k`. */
  function Increment(es: seq<Entry>, k: Key): int {
    if es == [] then 0 else Increment(es[..|es| - 1], k) + Delta(es[|es| - 1], k)
  }

  function Delta(e: Entry, k: Key): int {
    if e.key == k && e.change.userType == USERTYPE_UNIT && e.change.quantity.Some? then e.change.quantity.value else 0
  }

  /** Every entry names an existing property, and every unit entry's quantity parses. */
  predicate AppliesCleanly(s: Store, es: seq<Entry>) {
    forall i :: 0 <= i < |es| ==> es[i].key in s && (es[i].change.userType == USERTYPE_UNIT ==> es[i].change.quantity.Some?)
  }

  /** `s` with `n` times the increment added to every property. */
  function Shifted(s: Store, es: seq<Entry>, n: nat): Store {
    map k | k in s :: s[k] + n * Increment(es, k)
  }

  /** `k` is the key of some entry. */
  predicate Listed(es: seq<Entry>, k: Key) {
    exists i :: 0 <= i < |es| && es[i].key == k
  }

  /** `t` has the properties of `s`, and agrees with it on every property no entry names. */
  predicate SameOffListed(s: Store, t: Store, es: seq<Entry>) {
    s.Keys == t.Keys && forall k :: k in s && !Listed(es, k) ==> t[k] == s[k]
  }

  predicate UniqueKeys(es: seq<Entry>) {
    forall i, j :: 0 <= i < j < |es| ==> es[i].key != es[j].key
  }

  /** The method `_apply_delta_changes`. */
  method ApplyDeltaChanges(doc: Document, changes: ChangeTable) returns (raised: Option<Exception>)
    modifies doc
    ensures Applied(doc.props, raised) == ApplyChanges(old(doc.props), changes)
  {
    ghost var s0 := doc.props;
    ghost var done: seq<Entry> := [];
    var i := 0;
    while i < |changes|
      invariant 0 <= i <= |changes|
      invariant done == Flatten(changes[..i])
      invariant ApplyEntries(s0, done) == Applied(doc.props, None)
    {
      var objName := changes[i].objName;
      var props := changes[i].props;
      var j := 0;
      while j < |props|
        invariant 0 <= j <= |props|
        invariant done == Flatten(changes[..i]) + Rows(objName, props[..j])
        invariant ApplyEntries(s0, done) == Applied(doc.props, None)
      {
        var change := props[j];
        var key := (objName, change.prop);
        ApplyOneMore(s0, done, Entry(key, change));
        RowsStep(Flatten(changes[..i]), objName, props, j);
        done := done + [Entry(key, change)];
        if key !in doc.props {
          raised := Some(AttributeError(key));
          ApplyRaisedMidTable(s0, changes, i, j);
          return;
        }
        var prev := doc.props[key];
        if change.userType == USERTYPE_UNIT {
          if change.quantity.None? {
            raised := Some(QuantityError(key));
            ApplyRaisedMidTable(s0, changes, i, j);
            return;
          }
          doc.props := doc.props[key := prev + change.quantity.value];
        }
        j := j + 1;
      }
      FlattenStep(changes, i);
      i := i + 1;
    }
    assert changes[..|changes|] == changes;
    raised := None;
  }

  // ---------------------------------------------------------------- revert

  /** One iteration of the inner loop of `_revert_delta_changes`. */
  function RevertEntry(s: Store, e: Entry): Applied {
    if e.key !in s then Applied(s, Some(AttributeError(e.key)))
    else Applied(s[e.key := e.change.orig], None)
  }

  /** The entries reverted in order, stopping at the first exception. */
  function RevertEntries(s: Store, es: seq<Entry>): (r: Applied)
    ensures r.store.Keys == s.Keys
  {
    if es == [] then Applied(s, None)
    else
      var a := RevertEntries(s, es[..|es| - 1]);
      if a.raised.Some? then a else RevertEntry(a.store, es[|es| - 1])
  }

  function RevertChanges(s: Store, t: ChangeTable): Applied {
    RevertEntries(s, Flatten(t))
  }

  /** The `orig` of the last entry for `k`, None when no entry names `k`. */
  function LastOrig(es: seq<Entry>, k: Key): Option<int> {
    if es == [] then None
    else if es[|es| - 1].key == k then Some(es[|es| - 1].change.orig)
    else LastOrig(es[..|es| - 1], k)
  }

  /** `s` with every listed property set to its last recorded original. */
  function Restored(s: Store, es: seq<Entry>): Store {
    map k | k in s :: match LastOrig(es, k) case Some(o) => o case None => s[k]
  }

  predicate AllPresent(s: Store, es: seq<Entry>) {
    forall i :: 0 <= i < |es| ==> es[i].key in s
  }

  /** The position of the first entry whose property is missing, |es| when there is none. */
  function FirstMissing(s: Store, es: seq<Entry>): (n: nat)
    ensures n <= |es|
    ensures forall i :: 0 <= i < n ==> es[i].key in s
    ensures n < |es| ==> es[n].key !in s
  {
    if es == [] then 0
    else
      var f := FirstMissing(s, es[..|es| - 1]);
      if f < |es| - 1 then f
      else if es[|es| - 1].key in s then |es|
      else |es| - 1
  }

  /** The method `_revert_delta_changes`. */
  method RevertDeltaChanges(doc: Document, changes: ChangeTable) returns (raised: Option<Exception>)
    modifies doc
    ensures Applied(doc.props, raised) == RevertChanges(old(doc.props), changes)
  {
    ghost var s0 := doc.props;
    ghost var done: seq<Entry> := [];
    var i := 0;
    while i < |changes|
      invariant 0 <= i <= |changes|
      invariant done == Flatten(changes[..i])
      invariant RevertEntries(s0, done) == Applied(doc.props, None)
    {
      var objName := changes[i].objName;
      var props := changes[i].props;
      var j := 0;
      while j < |props|
        invariant 0 <= j <= |props|
        invariant done == Flatten(changes[..i]) + Rows(objName, props[..j])
        invariant RevertEntries(s0, done) == Applied(doc.props, None)
      {
        var change := props[j];
        var key := (objName, change.prop);
        RevertOneMore(s0, done, Entry(key, change));
        RowsStep(Flatten(changes[..i]), objName, props, j);
        done := done + [Entry(key, change)];
        if key !in doc.props {
          raised := Some(AttributeError(key));
          RevertRaisedMidTable(s0, changes, i, j);
          return;
        }
        doc.props := doc.props[key := change.orig];
        j := j + 1;
      }
      FlattenStep(changes, i);
      i := i + 1;
    }
    assert changes[..|changes|] == changes;
    raised := None;
  }

  // ---------------------------------------------------------------- table lemmas

  /** The entries visited so far grow by the `j`-th property of the current object. */
  lemma RowsStep(prefix: seq<Entry>, objName: string, ps: seq<PropChange>, j: nat)
    requires j < |ps|
    ensures prefix + Rows(objName, ps[..j]) + [Entry((objName, ps[j].prop), ps[j])] == prefix + Rows(objName, ps[..j + 1])
  {
    assert Rows(objName, ps[..j + 1]) == Rows(objName, ps[..j]) + [Entry((objName, ps[j].prop), ps[j])];
  }

  lemma FlattenStep(t: ChangeTable, i: nat)
    requires i < |t|
    ensures Flatten(t[..i + 1]) == Flatten(t[..i]) + Rows(t[i].objName, t[i].props[..|t[i].props|])
  {
    assert t[..i + 1][..i] == t[..i];
    assert t[i].props[..|t[i].props|] == t[i].props;
  }

  /** The next entry of a walk that has not raised yet. */
  lemma ApplyOneMore(s: Store, done: seq<Entry>, e: Entry)
    ensures ApplyEntries(s, done + [e]) ==
            (var a := ApplyEntries(s, done); if a.raised.Some? then a else ApplyEntry(a.store, e))
  {
    assert (done + [e])[..|done|] == done;
  }

  lemma RevertOneMore(s: Store, done: seq<Entry>, e: Entry)
    ensures RevertEntries(s, done + [e]) ==
            (var a := RevertEntries(s, done); if a.raised.Some? then a else RevertEntry(a.store, e))
  {
    assert (done + [e])[..|done|] == done;
  }

  lemma {:induction false} FlattenAppend(a: ChangeTable, b: ChangeTable)
    ensures Flatten(a + b) == Flatten(a) + Flatten(b)
    decreases |b|
  {
    if b == [] {
      assert a + b == a;
    } else {
      var b' := b[..|b| - 1];
      assert (a + b)[..|a + b| - 1] == a + b';
      FlattenAppend(a, b');
    }
  }

  /** The visiting order splits around the `j`-th property of the `i`-th object. */
  lemma FlattenSplit(t: ChangeTable, i: nat, j: nat)
    requires i < |t| && j <= |t[i].props|
    ensures Flatten(t) == Flatten(t[..i]) + Rows(t[i].objName, t[i].props[..j])
                          + (Rows(t[i].objName, t[i].props[j..]) + Flatten(t[i + 1..]))
  {
    assert t == t[..i] + [t[i]] + t[i + 1..];
    FlattenAppend(t[..i] + [t[i]], t[i + 1..]);
    FlattenAppend(t[..i], [t[i]]);
    assert Flatten([t[i]]) == Rows(t[i].objName, t[i].props) by {
      assert [t[i]][..0] == [];
    }
    RowsSplit(t[i].objName, t[i].props, j);
  }

  lemma RowsSplit(objName: string, ps: seq<PropChange>, j: nat)
    requires j <= |ps|
    ensures Rows(objName, ps) == Rows(objName, ps[..j]) + Rows(objName, ps[j..])
  {
    var a, b := Rows(objName, ps[..j]), Rows(objName, ps[j..]);
    assert forall k :: 0 <= k < |ps| ==> Rows(objName, ps)[k] == (a + b)[k];
  }

  // ---------------------------------------------------------------- apply lemmas

  /** An exception at the `j`-th property of the `i`-th object ends the whole walk. */
  lemma ApplyRaisedMidTable(s: Store, t: ChangeTable, i: nat, j: nat)
    requires i < |t| && j < |t[i].props|
    requires ApplyEntries(s, Flatten(t[..i]) + Rows(t[i].objName, t[i].props[..j + 1])).raised.Some?
    ensures ApplyChanges(s, t) == ApplyEntries(s, Flatten(t[..i]) + Rows(t[i].objName, t[i].props[..j + 1]))
  {
    FlattenSplit(t, i, j + 1);
    ApplyStopsAtRaise(s, Flatten(t[..i]) + Rows(t[i].objName, t[i].props[..j + 1]),
                      Rows(t[i].objName, t[i].props[j + 1..]) + Flatten(t[i + 1..]));
  }

  /** Once a walk has raised, the entries after it change nothing. */
  lemma {:induction false} ApplyStopsAtRaise(s: Store, p: seq<Entry>, q: seq<Entry>)
    requires ApplyEntries(s, p).raised.Some?
    ensures ApplyEntries(s, p + q) == ApplyEntries(s, p)
    decreases |q|
  {
    if q != [] {
      var q' := q[..|q| - 1];
      assert (p + q)[..|p + q| - 1] == p + q';
      ApplyStopsAtRaise(s, p, q');
    } else {
      assert p + q == p;
    }
  }

  /** The application raises exactly when some entry names a missing property
      or holds a unit quantity that does not parse. */
  lemma {:induction false} ApplyRaisesIff(s: Store, es: seq<Entry>)
    ensures ApplyEntries(s, es).raised.None? <==> AppliesCleanly(s, es)
  {
    if es != [] {
      var p := es[..|es| - 1];
      ApplyRaisesIff(s, p);
      assert forall i :: 0 <= i < |p| ==> p[i] == es[i];
    }
  }

  /** One clean application adds each property's increment to it. */
  lemma {:induction false} ApplyAddsIncrement(s: Store, es: seq<Entry>)
    requires AppliesCleanly(s, es)
    ensures ApplyEntries(s, es) == Applied(Shifted(s, es, 1), None)
  {
    if es == [] {
      assert Shifted(s, es, 1) == s;
    } else {
      var p := es[..|es| - 1];
      var e := es[|es| - 1];
      assert AppliesCleanly(s, p) by {
        forall i | 0 <= i < |p| ensures p[i] == es[i] { }
      }
      ApplyAddsIncrement(s, p);
      AddOneEntry(s, p, e);
      assert p + [e] == es;
    }
  }

  lemma AddOneEntry(s: Store, p: seq<Entry>, e: Entry)
    requires e.key in s && (e.change.userType == USERTYPE_UNIT ==> e.change.quantity.Some?)
    ensures ApplyEntry(Shifted(s, p, 1), e) == Applied(Shifted(s, p + [e], 1), None)
  {
    var t := Shifted(s, p, 1);
    var r := ApplyEntry(t, e);
    var u := Shifted(s, p + [e], 1);
    assert (p + [e])[..|p|] == p;
    forall k | k in s
      ensures r.store[k] == u[k]
    {
      assert Increment(p + [e], k) == Increment(p, k) + Delta(e, k);
    }
  }

  /** Applying the table `n` times, stopping at the first exception. */
  function ApplyTimes(s: Store, es: seq<Entry>, n: nat): Applied {
    if n == 0 then Applied(s, None)
    else
      var a := ApplyTimes(s, es, n - 1);
      if a.raised.Some? then a else ApplyEntries(a.store, es)
  }

  /** Accumulation: every application adds the same delta again, so `n`
      applications add it `n` times. */
  lemma {:induction false} ApplyTimesAccumulates(s: Store, es: seq<Entry>, n: nat)
    requires AppliesCleanly(s, es)
    ensures ApplyTimes(s, es, n) == Applied(Shifted(s, es, n), None)
  {
    if n == 0 {
      ShiftedZero(s, es);
    } else {
      var m := n - 1;
      ApplyTimesAccumulates(s, es, m);
      ApplyTimesUnfold(s, es, n);
      ShiftedStep(s, es, m);
    }
  }

  lemma ApplyTimesUnfold(s: Store, es: seq<Entry>, n: nat)
    requires n > 0 && ApplyTimes(s, es, n - 1).raised.None?
    ensures ApplyTimes(s, es, n) == ApplyEntries(ApplyTimes(s, es, n - 1).store, es)
  {
  }

  lemma ShiftedZero(s: Store, es: seq<Entry>)
    ensures Shifted(s, es, 0) == s
  {
    forall k | k in s ensures Shifted(s, es, 0)[k] == s[k] { }
  }

  /** One more clean application on top of `n` gives `n + 1`. */
  lemma ShiftedStep(s: Store, es: seq<Entry>, n: nat)
    requires AppliesCleanly(s, es)
    ensures ApplyEntries(Shifted(s, es, n), es) == Applied(Shifted(s, es, n + 1), None)
  {
    var t := Shifted(s, es, n);
    assert t.Keys == s.Keys;
    ApplyAddsIncrement(t, es);
    forall k | k in s
      ensures Shifted(t, es, 1)[k] == Shifted(s, es, n + 1)[k]
    {
      assert (n + 1) * Increment(es, k) == n * Increment(es, k) + Increment(es, k);
    }
  }

  /** Shifting by `m` and then by `n` is shifting by `m + n`. */
  lemma ShiftedCompose(s: Store, es: seq<Entry>, m: nat, n: nat)
    ensures Shifted(Shifted(s, es, m), es, n) == Shifted(s, es, m + n)
  {
    var t := Shifted(s, es, m);
    forall k | k in s
      ensures Shifted(t, es, n)[k] == Shifted(s, es, m + n)[k]
    {
      assert (m + n) * Increment(es, k) == m * Increment(es, k) + n * Increment(es, k);
    }
  }

  /** Whether the table applies cleanly depends only on which properties exist. */
  lemma CleanByKeys(s: Store, t: Store, es: seq<Entry>)
    requires s.Keys == t.Keys && AppliesCleanly(s, es)
    ensures AppliesCleanly(t, es)
  {
  }

  lemma SameOffListedTrans(s: Store, t: Store, u: Store, es: seq<Entry>)
    requires SameOffListed(s, t, es) && SameOffListed(t, u, es)
    ensures SameOffListed(s, u, es)
  {
  }

  /** A property no unit entry names gets nothing added. */
  lemma {:induction false} IncrementOfUnlisted(es: seq<Entry>, k: Key)
    requires forall i :: 0 <= i < |es| && es[i].key == k ==> es[i].change.userType != USERTYPE_UNIT
    ensures Increment(es, k) == 0
  {
    if es != [] {
      IncrementOfUnlisted(es[..|es| - 1], k);
    }
  }

  /** With one entry per property, a unit entry adds exactly its own quantity. */
  lemma {:induction false} IncrementOfUnitEntry(es: seq<Entry>, i: nat)
    requires UniqueKeys(es) && i < |es|
    requires es[i].change.userType == USERTYPE_UNIT && es[i].change.quantity.Some?
    ensures Increment(es, es[i].key) == es[i].change.quantity.value
  {
    var p := es[..|es| - 1];
    if i == |es| - 1 {
      IncrementOfUnlisted(p, es[i].key);
    } else {
      IncrementOfUnitEntry(p, i);
    }
  }

  /** Applying changes only the listed properties, whether or not it raises. */
  lemma {:induction false} ApplyTouchesOnlyListed(s: Store, es: seq<Entry>)
    ensures SameOffListed(s, ApplyEntries(s, es).store, es)
  {
    if es != [] {
      var p := es[..|es| - 1];
      ApplyTouchesOnlyListed(s, p);
      forall k | Listed(p, k) ensures Listed(es, k) {
        var i :| 0 <= i < |p| && p[i].key == k;
        assert es[i].key == k;
      }
    }
  }

  // ---------------------------------------------------------------- revert lemmas

  lemma RevertRaisedMidTable(s: Store, t: ChangeTable, i: nat, j: nat)
    requires i < |t| && j < |t[i].props|
    requires RevertEntries(s, Flatten(t[..i]) + Rows(t[i].objName, t[i].props[..j + 1])).raised.Some?
    ensures RevertChanges(s, t) == RevertEntries(s, Flatten(t[..i]) + Rows(t[i].objName, t[i].props[..j + 1]))
  {
    FlattenSplit(t, i, j + 1);
    RevertStopsAtRaise(s, Flatten(t[..i]) + Rows(t[i].objName, t[i].props[..j + 1]),
                      Rows(t[i].objName, t[i].props[j + 1..]) + Flatten(t[i + 1..]));
  }

  lemma {:induction false} RevertStopsAtRaise(s: Store, p: seq<Entry>, q: seq<Entry>)
    requires RevertEntries(s, p).raised.Some?
    ensures RevertEntries(s, p + q) == RevertEntries(s, p)
    decreases |q|
  {
    if q != [] {
      var q' := q[..|q| - 1];
      assert (p + q)[..|p + q| - 1] == p + q';
      RevertStopsAtRaise(s, p, q');
    } else {
      assert p + q == p;
    }
  }

  /** The revert writes the original of every entry before the first missing
      property, raises at that property if there is one, and nothing else. */
  lemma {:induction false} RevertShape(s: Store, es: seq<Entry>)
    ensures var f := FirstMissing(s, es);
            RevertEntries(s, es) == Applied(Restored(s, es[..f]), if f < |es| then Some(AttributeError(es[f].key)) else None)
  {
    if es == [] {
      assert Restored(s, []) == s;
    } else {
      var p := es[..|es| - 1];
      var e := es[|es| - 1];
      RevertShape(s, p);
      var fp := FirstMissing(s, p);
      if fp < |p| {
        assert es[..fp] == p[..fp];
      } else {
        assert p[..fp] == p;
        assert es[..|es|] == es;
        if e.key in s {
          assert Restored(s, p)[e.key := e.change.orig] == Restored(s, es);
        }
      }
    }
  }

  /** Rollback: when every listed property exists, the revert succeeds and
      leaves each listed property at its recorded original and every other
      property as it was. */
  lemma RevertRestores(s: Store, es: seq<Entry>)
    requires AllPresent(s, es)
    ensures RevertEntries(s, es) == Applied(Restored(s, es), None)
  {
    RevertShape(s, es);
    assert es[..|es|] == es;
  }

  /** The revert raises exactly when a listed property is missing. */
  lemma RevertRaisesIff(s: Store, es: seq<Entry>)
    ensures RevertEntries(s, es).raised.None? <==> AllPresent(s, es)
  {
    RevertShape(s, es);
  }

  /** Rollback is idempotent: reverting twice leaves the store reverting once
      leaves, and raises the same way. */
  lemma RevertIdempotent(s: Store, es: seq<Entry>)
    ensures RevertEntries(RevertEntries(s, es).store, es) == RevertEntries(s, es)
  {
    var t := RevertEntries(s, es).store;
    RevertShape(s, es);
    RevertShape(t, es);
    FirstMissingByKeys(s, t, es);
    RestoredTwice(s, es[..FirstMissing(s, es)]);
  }

  lemma FirstMissingByKeys(s: Store, t: Store, es: seq<Entry>)
    requires s.Keys == t.Keys
    ensures FirstMissing(s, es) == FirstMissing(t, es)
  {
    var f, g := FirstMissing(s, es), FirstMissing(t, es);
    assert f <= g by {
      if g < |es| { assert es[g].key !in s; }
    }
    assert g <= f by {
      if f < |es| { assert es[f].key !in t; }
    }
  }

  lemma RestoredTwice(s: Store, q: seq<Entry>)
    ensures Restored(Restored(s, q), q) == Restored(s, q)
  {
    var t := Restored(s, q);
    forall k | k in t ensures Restored(t, q)[k] == t[k] {
    }
  }

  /** With one entry per property, the `orig` an entry records is the one
      written back for its property. */
  lemma {:induction false} LastOrigOfEntry(es: seq<Entry>, i: nat)
    requires UniqueKeys(es) && i < |es|
    ensures LastOrig(es, es[i].key) == Some(es[i].change.orig)
  {
    if i < |es| - 1 {
      LastOrigOfEntry(es[..|es| - 1], i);
    }
  }

  /** No original is recorded for a property that no entry names. */
  lemma {:induction false} LastOrigOfUnlisted(es: seq<Entry>, k: Key)
    requires !Listed(es, k)
    ensures LastOrig(es, k) == None
  {
    if es != [] {
      var p := es[..|es| - 1];
      forall i | 0 <= i < |p| ensures p[i].key != k {
        assert p[i] == es[i];
      }
      LastOrigOfUnlisted(p, k);
    }
  }

  /** Some original is recorded for every property an entry names. */
  lemma {:induction false} LastOrigOfListed(es: seq<Entry>, i: nat)
    requires i < |es|
    ensures LastOrig(es, es[i].key).Some?
  {
    if i < |es| - 1 && es[|es| - 1].key != es[i].key {
      LastOrigOfListed(es[..|es| - 1], i);
    }
  }

  /** The revert sets each entry's property to the `orig` it records, and
      leaves every property not in the table unchanged. */
  lemma RevertWritesOrig(s: Store, es: seq<Entry>)
    requires AllPresent(s, es) && UniqueKeys(es)
    ensures forall i :: 0 <= i < |es| ==> RevertEntries(s, es).store[es[i].key] == es[i].change.orig
    ensures forall k :: k in s && !Listed(es, k) ==> RevertEntries(s, es).store[k] == s[k]
  {
    RevertRestores(s, es);
    forall i | 0 <= i < |es| ensures Restored(s, es)[es[i].key] == es[i].change.orig {
      LastOrigOfEntry(es, i);
    }
    forall k | k in s && !Listed(es, k) ensures Restored(s, es)[k] == s[k] {
      LastOrigOfUnlisted(es, k);
    }
  }

  /** The revert does not depend on the values of listed properties: any
      number of applications in between are erased by it. */
  lemma RevertForgetsListedValues(s: Store, t: Store, es: seq<Entry>)
    requires SameOffListed(s, t, es) && AllPresent(t, es)
    ensures RevertEntries(s, es) == RevertEntries(t, es)
  {
    assert AllPresent(s, es) by {
      forall i | 0 <= i < |es| ensures es[i].key in s {
        assert es[i].key in t;
      }
    }
    RevertRestores(s, es);
    RevertRestores(t, es);
    var rs, rt := Restored(s, es), Restored(t, es);
    assert rs.Keys == rt.Keys;
    forall k | k in s ensures rs[k] == rt[k] {
      match LastOrig(es, k)
      case Some(o) =>
      case None =>
        if Listed(es, k) {
          var i :| 0 <= i < |es| && es[i].key == k;
          LastOrigOfListed(es, i);
        }
    }
  }

  /** The object names of a table are distinct and so are the property names
      within each object, as in the nested dictionary. */
  predicate WellFormed(t: ChangeTable) {
    && (forall a, b :: 0 <= a < b < |t| ==> t[a].objName != t[b].objName)
    && (forall a :: 0 <= a < |t| ==> forall x, y :: 0 <= x < y < |t[a].props| ==> t[a].props[x].prop != t[a].props[y].prop)
  }

  function Names(t: ChangeTable): set<string> {
    set a | 0 <= a < |t| :: t[a].objName
  }

  lemma {:induction false} FlattenObjects(t: ChangeTable)
    ensures forall n :: 0 <= n < |Flatten(t)| ==> Flatten(t)[n].key.0 in Names(t)
  {
    if t != [] {
      var p := t[..|t| - 1];
      FlattenObjects(p);
      var fp := Flatten(p);
      var rs := Rows(t[|t| - 1].objName, t[|t| - 1].props);
      var all: seq<Entry> := fp + rs;
      assert Flatten(t) == all;
      assert Names(p) <= Names(t) by {
        forall o | o in Names(p) ensures o in Names(t) {
          var a :| 0 <= a < |p| && p[a].objName == o;
          assert t[a] == p[a];
        }
      }
      assert t[|t| - 1].objName in Names(t);
      forall n | 0 <= n < |all| ensures all[n].key.0 in Names(t) {
        if n < |fp| {
          assert all[n] == fp[n];
        } else {
          assert all[n] == rs[n - |fp|];
        }
      }
    }
  }

  /** A well-formed table visits each property once. */
  lemma {:induction false} TableKeysUnique(t: ChangeTable)
    requires WellFormed(t)
    ensures UniqueKeys(Flatten(t))
  {
    if t != [] {
      var p := t[..|t| - 1];
      var last := t[|t| - 1];
      assert WellFormed(p) by {
        forall a | 0 <= a < |p| ensures p[a] == t[a] { }
      }
      TableKeysUnique(p);
      FlattenObjects(p);
      var fp := Flatten(p);
      var rs := Rows(last.objName, last.props);
      var all: seq<Entry> := fp + rs;
      assert Flatten(t) == all;
      forall x, y | 0 <= x < y < |all| ensures all[x].key != all[y].key {
        if y < |fp| {
        } else if x >= |fp| {
          assert all[x].key.1 == last.props[x - |fp|].prop;
        } else {
          assert all[x] == fp[x];
          assert fp[x].key.0 in Names(p);
          var a :| 0 <= a < |p| && p[a].objName == fp[x].key.0;
          assert p[a] == t[a];
          assert all[y].key.0 == last.objName;
        }
      }
    }
  }
}
