/** `deep_dict_merge(d, u)`: every entry of `u` is written into `d`; an entry
    whose value is itself a dict is merged recursively into `d`'s entry (or
    into a fresh empty dict when `d` has none), any other value overwrites.
    The function mutates `d` and returns it; in every caller `d` is a dict of
    the caller's own, so the model returns the merged value. */
module Merge {
  import opened Json

  /** `d.get(k, {})` */
  function GetOrEmpty(dm: map<string, Value>, k: string): Value {
    if k in dm then dm[k] else Obj(map[])
  }

  /** What the loop writes into `d[k]` for one entry `k: v` of `u`. */
  function MergeEntry(dm: map<string, Value>, k: string, v: Value): Result<Value>
    decreases v, 3
  {
    if v.Obj? then DeepMerge(GetOrEmpty(dm, k), v) else Ok(v)
  }

  /** Some entry of `um` cannot be merged into `dm`. */
  predicate MergeFails(dm: map<string, Value>, um: map<string, Value>)
    decreases Obj(um), 1
  {
    exists k :: k in um && MergeEntry(dm, k, um[k]).Err?
  }

  /** The specification of `deep_dict_merge`. `u.items()` needs `u` to be a
      dict. Writing into or reading `.get` from a `d` that is not a dict
      raises as soon as `u` has an entry. Which exception (AttributeError or
      TypeError) depends on the order of `u`'s entries, which a map does not
      keep, so every failed merge is reported as TypeError. */
  function DeepMerge(d: Value, u: Value): (r: Result<Value>)
    ensures r.Ok? && d.Obj? && u.Obj? ==> r.value.Obj? && r.value.fields.Keys == d.fields.Keys + u.fields.Keys
    ensures r.Ok? && d.Obj? && u.Obj? ==>
      forall k :: k in d.fields && k !in u.fields ==> r.value.fields[k] == d.fields[k]
    ensures r.Ok? && u.Obj? && u.fields != map[] ==>
      d.Obj? && r.value.Obj? &&
      forall k :: k in u.fields && !u.fields[k].Obj? ==> r.value.fields[k] == u.fields[k]
    ensures r.Ok? <==> u.Obj? && (u.fields == map[] || (d.Obj? && !MergeFails(d.fields, u.fields)))
    decreases u, 2
  {
    match u
    case Obj(um) =>
      if um == map[] then Ok(d)
      else
        (match d
         case Obj(dm) =>
           if MergeFails(dm, um) then Err(TypeError)
           else Ok(Obj(map k | k in dm.Keys + um.Keys ::
                         if k in um then MergeEntry(dm, k, um[k]).value else dm[k]))
         case _ => Err(TypeError))
    case _ => Err(AttributeError)
  }

  /** `deep_dict_merge` as the source runs it: one pass over the entries of
      `u`, recursing into dict values. */
  method DeepDictMerge(d: Value, u: Value) returns (r: Result<Value>)
    ensures r == DeepMerge(d, u)
    decreases u
  {
    if !u.Obj? { return Err(AttributeError); }
    var um := u.fields;
    if um == map[] { return Ok(d); }
    if !d.Obj? { return Err(TypeError); }
    var dm := d.fields;
    var acc := dm;
    var todo := um.Keys;
    while todo != {}
      invariant todo <= um.Keys
      invariant forall k :: k in um && k !in todo ==> MergeEntry(dm, k, um[k]).Ok?
      invariant acc.Keys == dm.Keys + (um.Keys - todo)
      invariant forall k :: k in acc ==>
        acc[k] == if k in um && k !in todo then MergeEntry(dm, k, um[k]).value else dm[k]
      decreases todo
    {
      var k :| k in todo;
      var v := um[k];
      if v.Obj? {
        var sub := DeepDictMerge(GetOrEmpty(acc, k), v);
        assert GetOrEmpty(acc, k) == GetOrEmpty(dm, k);
        if sub.Err? {
          assert MergeEntry(dm, k, um[k]).Err?;
          return Err(TypeError);
        }
        acc := acc[k := sub.value];
      } else {
        acc := acc[k := v];
      }
      todo := todo - {k};
    }
    assert !MergeFails(dm, um);
    ghost var merged := DeepMerge(d, u).value.fields;
    assert forall k :: k in acc ==> acc[k] == merged[k];
    assert acc == merged;
    r := Ok(Obj(acc));
  }

  /** Line 434: an entry of `u` that is a dict becomes the merge of that
      dict into `d`'s entry, or into `{}` when `d` has none. */
  lemma MergeRecurses(d: Value, u: Value, k: string)
    requires DeepMerge(d, u).Ok? && d.Obj? && u.Obj?
    requires k in u.fields && u.fields[k].Obj?
    ensures k in DeepMerge(d, u).value.fields
    ensures DeepMerge(GetOrEmpty(d.fields, k), u.fields[k]) == Ok(DeepMerge(d, u).value.fields[k])
  {
  }

  /** Merging a dict into an empty dict copies it. */
  lemma {:induction false} MergeIntoEmptyCopies(u: Value)
    requires u.Obj?
    ensures DeepMerge(Obj(map[]), u) == Ok(u)
    decreases u
  {
    var um := u.fields;
    if um != map[] {
      forall k | k in um ensures MergeEntry(map[], k, um[k]) == Ok(um[k]) {
        if um[k].Obj? { MergeIntoEmptyCopies(um[k]); }
      }
      assert !MergeFails(map[], um);
      var r := DeepMerge(Obj(map[]), u).value;
      assert r.fields == um;
    }
  }

  /** Merging the same dict a second time changes nothing. */
  lemma {:induction false} MergeIdempotent(d: Value, u: Value)
    requires DeepMerge(d, u).Ok?
    ensures DeepMerge(DeepMerge(d, u).value, u) == DeepMerge(d, u)
    decreases u
  {
    var r := DeepMerge(d, u).value;
    var um := u.fields;
    if um != map[] {
      var dm, rm := d.fields, r.fields;
      forall k | k in um ensures MergeEntry(rm, k, um[k]) == Ok(rm[k]) {
        var v := um[k];
        if v.Obj? {
          assert MergeEntry(dm, k, v).Ok?;
          assert rm[k] == MergeEntry(dm, k, v).value;
          MergeIdempotent(GetOrEmpty(dm, k), v);
        }
      }
      assert !MergeFails(rm, um);
      assert DeepMerge(r, u).value.fields == rm;
    }
  }

  /** With no dict among `u`'s values the merge is a plain update of `d`. */
  lemma FlatMerge(dm: map<string, Value>, um: map<string, Value>)
    requires forall k :: k in um ==> !um[k].Obj?
    ensures DeepMerge(Obj(dm), Obj(um)) == Ok(Obj(dm + um))
  {
    if um != map[] {
      assert !MergeFails(dm, um);
      var merged := DeepMerge(Obj(dm), Obj(um)).value.fields;
      assert forall k :: k in merged ==> merged[k] == (dm + um)[k];
      assert merged == dm + um;
      assert DeepMerge(Obj(dm), Obj(um)) == Ok(Obj(merged));
    } else {
      assert dm + um == dm;
    }
  }
}
