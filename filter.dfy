/** The three `setIfNotEmpty` overloads: insertions into a caller's array or
    object that are skipped when the value carries nothing. */
module Filter {
  import opened Json
  import opened Broma
  import opened Platforms

  /** The array overload: pushes `val` when it is a non-empty array, object or
      string, or the boolean `true`; numbers, null and `false` are never pushed. */
  method AppendIfNotEmpty(arr: JsonArray, val: Json)
    modifies arr
    ensures arr.elems == old(arr.elems) + (if NonEmptyContainer(val) || val == Bool(true) then [val] else [])
    ensures val.Int? || val.Null? || val == Bool(false) ==> arr.elems == old(arr.elems)
  {
    match val
    case Arr(a) => if |a| > 0 { arr.PushBack(val); }
    case Obj(o) => if |o| > 0 { arr.PushBack(val); }
    case Str(s) => if |s| > 0 { arr.PushBack(val); }
    case Bool(b) => if b { arr.PushBack(val); }
    case _ =>
  }

  /** The object overload for values: sets `key` when `val` is a non-empty array,
      object or string. It has no boolean case, so booleans, like numbers and
      null, are never set. */
  method SetIfNotEmpty(obj: JsonObject, key: string, val: Json)
    modifies obj
    ensures obj.entries == old(obj.entries) + Optional(NonEmptyContainer(val), key, val)
    ensures val.Bool? || val.Int? || val.Null? ==> obj.entries == old(obj.entries)
  {
    match val {
      case Arr(a) => if |a| > 0 { obj.Set(key, val); }
      case Obj(o) => if |o| > 0 { obj.Set(key, val); }
      case Str(s) => if |s| > 0 { obj.Set(key, val); }
      case _ =>
    }
  }

  /** The object overload for platforms: sets `key` to the platform's code unless
      the platform is `None`. */
  method SetPlatformIfNotNone(obj: JsonObject, key: string, plat: Platform)
    modifies obj
    ensures obj.entries == old(obj.entries) + Optional(plat != None, key, PlatformJson(plat))
  {
    if plat != None {
      obj.Set(key, PlatformJson(plat));
    }
  }

  /** `if (cond) obj[key] = val;`, the form the member-function serialiser
      writes out inline. */
  method SetWhen(obj: JsonObject, cond: bool, key: string, val: Json)
    modifies obj
    ensures obj.entries == old(obj.entries) + Optional(cond, key, val)
  {
    if cond {
      obj.Set(key, val);
    }
  }
}
