/**
  The accumulating case record: a Python `dict` from string keys to string
  values that every stage updates in place.
 */
module Records {

  type Record = map<string, string>

  /** One `dict` object. Stages that receive it write into `data`. */
  class CaseRecord {
    var data: Record

    constructor (init: Record)
      ensures data == init
    {
      data := init;
    }
  }

  /** `d.get(key, "")`. */
  function Get(m: Record, key: string): string
  {
    if key in m then m[key] else ""
  }

  /** True when `m2` holds exactly what `m1` holds at `key`: both lack it, or
      both map it to the same value. */
  predicate SameAt(m1: Record, m2: Record, key: string)
  {
    (key in m1 <==> key in m2) && (key in m1 ==> m1[key] == m2[key])
  }
}
