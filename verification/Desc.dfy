/** Segment descriptors and gates (Intel SDM Vol. 3A, sections 3.4.5 and 6.11): packing and unpacking. */
module Desc {

  const DA_32: bv16 := 0x4000
  const DA_LIMIT_4K: bv16 := 0x8000
  const DA_DPL3: bv16 := 0x60
  const DA_CR: bv16 := 0x9A
  const DA_DRW: bv16 := 0x92
  const DA_LDT: bv16 := 0x82
  const DA_386TSS: bv16 := 0x89
  const DA_386CGATE: bv8 := 0x8C
  const DA_386IGATE: bv8 := 0x8E
  const DA_386TGATE: bv8 := 0x8F
  const DA_TASKGATE: bv8 := 0x85

  // ---------------------------------------------------------------- packing

  function MakeDesc(base: bv32, limit: bv32, attr: bv16): bv64 {
    var low := (base << 16) | (limit & 0xffff);
    var high := ((base >> 16) & 0xff)
                | ((((attr & 0xf0ff) as bv32) | ((limit >> 8) & 0x0f00)) << 8)
                | (base & 0xff000000);
    ((high as bv64) << 32) | (low as bv64)
  }

  function MakeSegDesc(base: bv32, limit: bv32, attr: bv16): bv64 {
    MakeDesc(base, limit, attr | 0x90)
  }

  function MakeLdtDesc(base: bv32, limit: bv32, attr: bv16): bv64 {
    MakeDesc(base, limit, (attr & 0xffe0) | DA_LDT)
  }

  function MakeTssDesc(base: bv32, limit: bv32, attr: bv16): bv64 {
    MakeDesc(base, limit, (attr & 0xf0e0) | DA_386TSS)
  }

  function MakeGate(stub: bv32, selector: bv16, dcount: bv8, attr: bv8): bv64 {
    var low := ((selector as bv32) << 16) | (stub & 0xffff);
    var high := (stub & 0xffff0000) | ((attr as bv32) << 8) | ((dcount & 0x1f) as bv32);
    ((high as bv64) << 32) | (low as bv64)
  }

  /** The attribute byte of a gate of the given type for callers at privilege `dpl`. */
  function GateAttr(dpl: bv8, kind: bv8): bv8 {
    ((dpl & 3) << 5) | kind
  }

  function MakeCallGate(stub: bv32, selector: bv16, dcount: bv8, dpl: bv8): bv64 {
    MakeGate(stub, selector, dcount, GateAttr(dpl, DA_386CGATE))
  }

  function MakeTrapGate(stub: bv32, selector: bv16, dpl: bv8): bv64 {
    MakeGate(stub, selector, 0, GateAttr(dpl, DA_386TGATE))
  }

  function MakeIntrGate(stub: bv32, selector: bv16, dpl: bv8): bv64 {
    MakeGate(stub, selector, 0, GateAttr(dpl, DA_386IGATE))
  }

  function MakeTaskGate(selector: bv16, dpl: bv8): bv64 {
    MakeGate(0, selector, 0, GateAttr(dpl, DA_TASKGATE))
  }

  // ---------------------------------------------------------------- unpacking

  function GetBaseFromDesc(desc: bv64): bv32 {
    (((desc >> 16) & 0xffffff) | ((desc >> 32) & 0xff000000)) as bv32
  }

  function GetLimitFromDesc(desc: bv64): bv32 {
    var limit := ((desc & 0xffff) | ((desc >> 32) & 0xf0000)) as bv32;
    if (desc >> 32) & 0x00800000 != 0 then limit * 4096 else limit
  }

  function GetAttrFromDesc(desc: bv64): bv16 {
    ((desc >> 40) & 0xf0ff) as bv16
  }

  function GetFunFromGate(gate: bv64): bv32 {
    ((gate & 0xffff) | ((gate >> 32) & 0xffff0000)) as bv32
  }

  function GetSelectorFromGate(gate: bv64): bv16 {
    ((gate >> 16) & 0xffff) as bv16
  }

  function GetAttrFromGate(gate: bv64): bv8 {
    ((gate >> 40) & 0xff) as bv8
  }

  // ---------------------------------------------------------------- round trips

  /**
   * Unpacking a descriptor returns the base, the low 20 bits of the limit (in bytes, so times 4096 when
   * the granularity bit is set) and every attribute bit that a descriptor has room for.
   */
  lemma DescRoundTrip(base: bv32, limit: bv32, attr: bv16)
    ensures GetBaseFromDesc(MakeDesc(base, limit, attr)) == base
    ensures GetLimitFromDesc(MakeDesc(base, limit, attr))
         == if attr & DA_LIMIT_4K != 0 then (limit & 0xfffff) * 4096 else limit & 0xfffff
    ensures GetAttrFromDesc(MakeDesc(base, limit, attr)) == attr & 0xf0ff
  {
  }

  /** Where the processor looks for the parts of a descriptor. */
  lemma DescLayout(base: bv32, limit: bv32, attr: bv16)
    ensures var d := MakeDesc(base, limit, attr);
      && d & 0xffff == (limit & 0xffff) as bv64 && (d >> 48) & 0xf == ((limit >> 16) & 0xf) as bv64
      && (d >> 16) & 0xffffff == (base & 0xffffff) as bv64 && d >> 56 == (base >> 24) as bv64
      && (d >> 40) & 0xf0ff == (attr & 0xf0ff) as bv64
  {
  }

  /** Where it looks for the parts of a gate. */
  lemma GateLayout(stub: bv32, selector: bv16, dcount: bv8, attr: bv8)
    ensures var g := MakeGate(stub, selector, dcount, attr);
      && g & 0xffff == (stub & 0xffff) as bv64 && g >> 48 == (stub >> 16) as bv64
      && (g >> 16) & 0xffff == selector as bv64
      && (g >> 32) & 0xff == (dcount & 0x1f) as bv64 && (g >> 40) & 0xff == attr as bv64
  {
  }

  /** Unpacking a gate returns the stub address, the selector and the attribute byte. */
  lemma GateRoundTrip(stub: bv32, selector: bv16, dcount: bv8, attr: bv8)
    ensures GetFunFromGate(MakeGate(stub, selector, dcount, attr)) == stub
    ensures GetSelectorFromGate(MakeGate(stub, selector, dcount, attr)) == selector
    ensures GetAttrFromGate(MakeGate(stub, selector, dcount, attr)) == attr
  {
  }

  /** The typed gates are present, of the type that the processor knows them by, and carry the low two bits of `dpl` as privilege. */
  lemma GateKinds(stub: bv32, selector: bv16, dcount: bv8, dpl: bv8)
    ensures var a := GetAttrFromGate(MakeCallGate(stub, selector, dcount, dpl));
      a & 0x9f == 0x8C && (a >> 5) & 3 == dpl & 3
    ensures var a := GetAttrFromGate(MakeTrapGate(stub, selector, dpl));
      a & 0x9f == 0x8F && (a >> 5) & 3 == dpl & 3
    ensures var a := GetAttrFromGate(MakeIntrGate(stub, selector, dpl));
      a & 0x9f == 0x8E && (a >> 5) & 3 == dpl & 3
    ensures var a := GetAttrFromGate(MakeTaskGate(selector, dpl));
      a & 0x9f == 0x85 && (a >> 5) & 3 == dpl & 3
  {
    GateRoundTrip(stub, selector, dcount, GateAttr(dpl, DA_386CGATE));
    GateRoundTrip(stub, selector, 0, GateAttr(dpl, DA_386TGATE));
    GateRoundTrip(stub, selector, 0, GateAttr(dpl, DA_386IGATE));
    GateRoundTrip(0, selector, 0, GateAttr(dpl, DA_TASKGATE));
  }

  /**
   * The typed descriptors are present and of their own type. A segment has the type asked for; an LDT and a TSS keep of
   * the attributes the privilege and, with the granularity, what the upper byte has room for.
   */
  lemma DescKinds(base: bv32, limit: bv32, attr: bv16)
    ensures var a := GetAttrFromDesc(MakeSegDesc(base, limit, attr)); a & 0x90 == 0x90 && a & 0xf06f == attr & 0xf06f
    ensures var a := GetAttrFromDesc(MakeLdtDesc(base, limit, attr)); a & 0x9f == 0x82 && a & 0xf060 == attr & 0xf060
    ensures var a := GetAttrFromDesc(MakeTssDesc(base, limit, attr)); a & 0x9f == 0x89 && a & 0xf060 == attr & 0xf060
  {
    DescRoundTrip(base, limit, attr | 0x90);
    DescRoundTrip(base, limit, (attr & 0xffe0) | DA_LDT);
    DescRoundTrip(base, limit, (attr & 0xf0e0) | DA_386TSS);
  }

  /** The descriptor of a user process: page granularity, its limit field holding the number of pages. */
  function UserSegment(base: bv32, pages: bv32): bv64 {
    MakeSegDesc(base, pages, DA_32 | DA_CR | DA_DPL3 | DA_LIMIT_4K)
  }

  /**
   * The page count that an exiting process reads back is the one it was given exactly below 2^20 pages. The segment is
   * code that can be read, present, for privilege 3, of 32 bits and with a limit in pages.
   */
  lemma UserSegmentPages(base: bv32, pages: bv32)
    ensures GetBaseFromDesc(UserSegment(base, pages)) == base
    ensures GetLimitFromDesc(UserSegment(base, pages)) / 4096 == pages <==> pages < 0x100000
    ensures GetAttrFromDesc(UserSegment(base, pages)) == 0xc0fa
  {
    DescRoundTrip(base, pages, DA_32 | DA_CR | DA_DPL3 | DA_LIMIT_4K | 0x90);
  }

  /** The data segment of a user process is the same stretch of memory as its code segment, and can be written. */
  lemma UserDataSegment(base: bv32, pages: bv32)
    ensures var data := MakeSegDesc(base, pages, DA_32 | DA_DRW | DA_DPL3 | DA_LIMIT_4K);
      GetBaseFromDesc(data) == GetBaseFromDesc(UserSegment(base, pages))
      && GetLimitFromDesc(data) == GetLimitFromDesc(UserSegment(base, pages)) && GetAttrFromDesc(data) == 0xc0f2
  {
    DescRoundTrip(base, pages, DA_32 | DA_CR | DA_DPL3 | DA_LIMIT_4K | 0x90);
    DescRoundTrip(base, pages, DA_32 | DA_DRW | DA_DPL3 | DA_LIMIT_4K | 0x90);
  }
}
