/** Platform tags and per-platform offsets: `n_forPlatform`, the Platform
    serialiser and the PlatformNumber serialiser. */
module Platforms {
  import opened Json
  import opened Broma

  /** The platforms that have an offset slot of their own in a PlatformNumber. */
  predicate HasSlot(p: Platform)
  {
    p == Windows || p == Mac || p == Android64 || p == Android32 || p == iOS
  }

  /** `n_forPlatform`: the offset recorded for `p`, unless it is the sentinel -1
      or `p` has no slot of its own (the generic Android tag and None). */
  function ForPlatform(n: PlatformNumber, p: Platform): (r: Option<int>)
    ensures r != Some(-1)
    ensures !HasSlot(p) ==> r == Nothing
    ensures p == Windows ==> r == (if n.win == -1 then Nothing else Some(n.win))
    ensures p == Mac ==> r == (if n.mac == -1 then Nothing else Some(n.mac))
    ensures p == Android64 ==> r == (if n.android64 == -1 then Nothing else Some(n.android64))
    ensures p == Android32 ==> r == (if n.android32 == -1 then Nothing else Some(n.android32))
    ensures p == iOS ==> r == (if n.ios == -1 then Nothing else Some(n.ios))
  {
    var slot :=
      match p
      case Windows => Some(n.win)
      case Mac => Some(n.mac)
      case Android64 => Some(n.android64)
      case Android32 => Some(n.android32)
      case iOS => Some(n.ios)
      case _ => Nothing;
    match slot
    case Nothing => Nothing
    case Some(offset) => if offset == -1 then Nothing else Some(offset)
  }

  /** The Platform serialiser: a fixed, non-empty short code per tag. */
  function PlatformJson(p: Platform): (r: Json)
    ensures r.Str? && |r.s| > 0
  {
    match p
    case Windows => Str("win")
    case Mac => Str("mac")
    case Android64 => Str("android64")
    case Android32 => Str("android32")
    case Android => Str("android")
    case iOS => Str("ios")
    case None => Str("none")
  }

  /** What the PlatformNumber serialiser produces: one key per slot whose offset is
      not -1, in the order win, mac, android32, android64, ios. */
  function PlatformNumberJson(n: PlatformNumber): (r: Json)
    ensures r.Obj? && (NonEmptyContainer(r) <==> HasAddress(n))
  {
    Obj(Optional(n.win != -1, "win", Int(n.win))
        + Optional(n.mac != -1, "mac", Int(n.mac))
        + Optional(n.android32 != -1, "android32", Int(n.android32))
        + Optional(n.android64 != -1, "android64", Int(n.android64))
        + Optional(n.ios != -1, "ios", Int(n.ios)))
  }

  /** True when at least one slot holds a real offset. */
  predicate HasAddress(n: PlatformNumber)
  {
    n.win != -1 || n.mac != -1 || n.android32 != -1 || n.android64 != -1 || n.ios != -1
  }

  /** The entry `get_set_n` adds under `code` for a resolved offset. */
  function OffsetEntry(code: string, addr: Option<int>): Entries
  {
    match addr
    case Some(offset) => [(code, Int(offset))]
    case Nothing => []
  }

  /** The `get_set_n` step of the PlatformNumber serialiser: `ret[code] = offset`
      when `n_forPlatform` resolves an offset for `plat`. */
  method SetAddress(ret: JsonObject, n: PlatformNumber, code: string, plat: Platform)
    modifies ret
    ensures ret.entries == old(ret.entries) + OffsetEntry(code, ForPlatform(n, plat))
  {
    var addr := ForPlatform(n, plat);
    if addr.Some? {
      ret.Set(code, Int(addr.value));
    }
  }

  /** The five `get_set_n` steps add up to the sentinel rule, slot by slot. */
  lemma OffsetEntries(n: PlatformNumber)
    ensures OffsetEntry("win", ForPlatform(n, Windows)) + OffsetEntry("mac", ForPlatform(n, Mac))
            + OffsetEntry("android32", ForPlatform(n, Android32)) + OffsetEntry("android64", ForPlatform(n, Android64))
            + OffsetEntry("ios", ForPlatform(n, iOS))
            == PlatformNumberJson(n).entries
  {
    assert OffsetEntry("win", ForPlatform(n, Windows)) == Optional(n.win != -1, "win", Int(n.win));
    assert OffsetEntry("mac", ForPlatform(n, Mac)) == Optional(n.mac != -1, "mac", Int(n.mac));
    assert OffsetEntry("android32", ForPlatform(n, Android32)) == Optional(n.android32 != -1, "android32", Int(n.android32));
    assert OffsetEntry("android64", ForPlatform(n, Android64)) == Optional(n.android64 != -1, "android64", Int(n.android64));
    assert OffsetEntry("ios", ForPlatform(n, iOS)) == Optional(n.ios != -1, "ios", Int(n.ios));
  }

  /** The PlatformNumber serialiser, built key by key. */
  method SerializePlatformNumber(n: PlatformNumber) returns (v: Json)
    ensures v == PlatformNumberJson(n)
  {
    var ret := new JsonObject();
    SetAddress(ret, n, "win", Windows);
    assert ret.entries == OffsetEntry("win", ForPlatform(n, Windows));
    SetAddress(ret, n, "mac", Mac);
    SetAddress(ret, n, "android32", Android32);
    SetAddress(ret, n, "android64", Android64);
    SetAddress(ret, n, "ios", iOS);
    OffsetEntries(n);
    v := Obj(ret.entries);
  }
}
