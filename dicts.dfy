/** Python `dict` objects. They are shared by reference: an instance's
    `__dict__`, a caller's query and a constructor's `data` argument are all
    changed in place by the model layer. */
module Dicts {
  import opened Values

  /** `base.update(kwargs)` as a value: keys of `kwargs` win. */
  function Merge(base: Document, kwargs: Document): (r: Document)
    ensures r.Keys == base.Keys + kwargs.Keys
    ensures forall k :: k in kwargs ==> r[k] == kwargs[k]
    ensures forall k :: k in base && k !in kwargs ==> r[k] == base[k]
  {
    base + kwargs
  }

  class Dict {
    var entries: Document

    constructor (init: Document)
      ensures entries == init
    {
      entries := init;
    }

    /** `d.pop(k)`: None where Python raises KeyError. */
    method Pop(k: string) returns (v: Option<Value>)
      modifies this
      ensures v == if k in old(entries) then Some(old(entries)[k]) else None
      ensures entries == old(entries) - {k}
    {
      v := if k in entries then Some(entries[k]) else None;
      entries := entries - {k};
    }

    /** `d[k] = v`. */
    method Set(k: string, v: Value)
      modifies this
      ensures entries == old(entries)[k := v]
    {
      entries := entries[k := v];
    }

    /** `d.update(kwargs)`. */
    method Update(kwargs: Document)
      modifies this
      ensures entries == Merge(old(entries), kwargs)
    {
      entries := entries + kwargs;
    }

    /** `d.setdefault(k, v)`: stores `v` only when `k` is absent. */
    method SetDefault(k: string, v: Value)
      modifies this
      ensures entries == if k in old(entries) then old(entries) else old(entries)[k := v]
    {
      if k !in entries {
        entries := entries[k := v];
      }
    }
  }

  /** The contents of an optional dict argument, with None read as `{}`. */
  function Contents(d: Option<Document>): Document {
    if d.Some? then d.value else map[]
  }

  /** `d or {}`: a non-empty dict argument itself; None or an empty dict gives a new dict. */
  method OrEmpty(d: Dict?) returns (r: Dict)
    ensures r.entries == if d == null then map[] else d.entries
    ensures d != null && d.entries != map[] ==> r == d
    ensures d == null || d.entries == map[] ==> fresh(r)
  {
    if d != null && d.entries != map[] {
      r := d;
    } else {
      r := new Dict(map[]);
    }
  }

  /** `d = d or {}; d.update(kwargs)`: a non-empty dict argument is updated in
      place and returned; None or an empty dict is replaced by a new dict and
      the caller's empty dict is left alone. */
  method OrEmptyUpdate(d: Dict?, kwargs: Document) returns (r: Dict)
    modifies d
    ensures r.entries == Merge(if d == null then map[] else old(d.entries), kwargs)
    ensures d != null && old(d.entries) != map[] ==> r == d
    ensures d == null || old(d.entries) == map[] ==> fresh(r)
    ensures d != null && old(d.entries) == map[] ==> d.entries == map[]
  {
    r := OrEmpty(d);
    r.Update(kwargs);
  }
}
