/** The PCI slot allocator of the QEMU console: any number of disks is spread over a table of
    bridges that is updated in place and grows into a tree of nested bridges.

    The loop is proved against a closed form (`DiskSlot`, `NestedCount`, `NestedSlot`), and the
    closed form is then shown to be a valid wiring: no slot is used twice, every address is
    legal, and the bridges form a forest. */
module PciSlots {

  /** Device address `addr` on bus `pcie.<bus>`. */
  datatype Slot = Slot(bus: nat, addr: nat)

  /** One record of the bridge table. */
  datatype Bridge = Bridge(bus: nat, devices: nat, bridged: bool)

  /** A nested bridge: it provides `pcie.<bus>` and sits in slot `at`. */
  datatype Nested = Nested(bus: nat, at: Slot)

  datatype Outcome = Placed | RanOutOfSlots | LostTrack

  const CAPACITY: nat := 30
  const FIRST_BUS: nat := 3
  const BASE_BRIDGES: nat := 9
  /** Table index of the bridge (bus 7) that already carries the NIC and the CD-ROM. */
  const PREFILLED_INDEX: nat := 4

  // ----- Closed form -----

  /** Disks before the prefilled bridge count from zero; the later ones jump over its `p` slots. */
  function Position(p: nat, k: nat): nat {
    if k < CAPACITY * PREFILLED_INDEX then k else k + p
  }

  function DiskSlot(p: nat, k: nat): Slot {
    Slot(FIRST_BUS + Position(p, k) / CAPACITY, 2 + Position(p, k) % CAPACITY)
  }

  /** max(0, ceil((n + p) / 30) - 9) */
  function NestedCount(p: nat, n: nat): nat {
    var needed := (n + p + CAPACITY - 1) / CAPACITY;
    if needed <= BASE_BRIDGES then 0 else needed - BASE_BRIDGES
  }

  function NestedSlot(j: nat): Nested {
    Nested(FIRST_BUS + BASE_BRIDGES + j, Slot(FIRST_BUS + j, 1))
  }

  // ----- The table the loop maintains -----

  /** Index of the bridge in use once `k` disks are placed. */
  function Current(p: nat, k: nat): nat {
    if k == 0 then 0 else Position(p, k - 1) / CAPACITY
  }

  function Load(p: nat, k: nat, j: nat): nat {
    if k > 0 && j < Current(p, k) then CAPACITY
    else if k > 0 && j == Current(p, k) then Position(p, k - 1) % CAPACITY + 1
    else if j == PREFILLED_INDEX then p
    else 0
  }

  function TableSize(p: nat, k: nat): nat {
    if Current(p, k) < BASE_BRIDGES then BASE_BRIDGES else Current(p, k) + 1
  }

  /** Exactly the first `|t| - 9` records are bridged, and the loads are those of `Load`. */
  ghost predicate TableOk(p: nat, k: nat, t: seq<Bridge>) {
    && |t| == TableSize(p, k)
    && forall j :: 0 <= j < |t| ==> t[j] == Bridge(FIRST_BUS + j, Load(p, k, j), j < |t| - BASE_BRIDGES)
  }

  /** What placing disk `k` does to the bridge in use: stay, move on, or open a nested bridge. */
  lemma NextPosition(p: nat, k: nat)
    requires p < CAPACITY || k < CAPACITY * PREFILLED_INDEX
    ensures Current(p, k + 1) == if Load(p, k, Current(p, k)) < CAPACITY then Current(p, k) else Current(p, k) + 1
    ensures Position(p, k) % CAPACITY ==
            if Load(p, k, Current(p, k)) < CAPACITY then Load(p, k, Current(p, k))
            else if Current(p, k) + 1 == PREFILLED_INDEX then p else 0
  {
  }

  /** Placing disk `k`, in terms of the table: the disk goes to the bridge in use, or to the next one,
      which may have to be added; that bridge's load grows by one and nothing else changes. */
  lemma NextDisk(p: nat, k: nat)
    requires p < CAPACITY || k < CAPACITY * PREFILLED_INDEX
    ensures var (c, c') := (Current(p, k), Current(p, k + 1));
            && c < TableSize(p, k) && BASE_BRIDGES <= TableSize(p, k)
            && c' == (if Load(p, k, c) < CAPACITY then c else c + 1)
            && DiskSlot(p, k) == Slot(FIRST_BUS + c', 2 + Load(p, k, c'))
            && Load(p, k, c') < CAPACITY
            && TableSize(p, k + 1) == (if c' == TableSize(p, k) then TableSize(p, k) + 1 else TableSize(p, k))
            && (c' == TableSize(p, k) ==> Load(p, k, c') == 0)
            && (forall j :: Load(p, k + 1, j) == Load(p, k, j) + if j == c' then 1 else 0)
  {
    NextPosition(p, k);
  }

  /** The table with a bridge opened at its end if the next disk needs one. */
  ghost function Opened(p: nat, k: nat, t: seq<Bridge>): seq<Bridge>
    requires |t| >= BASE_BRIDGES
  {
    var i := |t| - BASE_BRIDGES;
    if Current(p, k + 1) == |t| then t[i := t[i].(bridged := true)] + [Bridge(FIRST_BUS + |t|, 0, false)] else t
  }

  lemma TableStep(p: nat, k: nat, t: seq<Bridge>)
    requires (p < CAPACITY || k < CAPACITY * PREFILLED_INDEX) && TableOk(p, k, t)
    ensures |t| >= BASE_BRIDGES
    ensures var (c', u) := (Current(p, k + 1), Opened(p, k, t));
            && c' < |u| && u[c'].bus == FIRST_BUS + c' && u[c'].devices == Load(p, k, c')
            && TableOk(p, k + 1, u[c' := u[c'].(devices := u[c'].devices + 1)])
  {
    NextDisk(p, k);
    hide Load, Current, Position, DiskSlot, TableSize;
  }

  lemma ReadTable(p: nat, k: nat, t: seq<Bridge>)
    requires TableOk(p, k, t)
    ensures |t| == TableSize(p, k) >= BASE_BRIDGES && Current(p, k) < |t|
    ensures forall j :: 0 <= j < |t| ==> t[j].bus == FIRST_BUS + j && t[j].devices == Load(p, k, j)
    ensures forall j :: 0 <= j < |t| ==> (t[j].bridged <==> j < |t| - BASE_BRIDGES)
    ensures exists x :: x in t && !x.bridged
  {
    assert t[|t| - 1] in t;
  }

  /** Where a prefilled bridge without room stops the loop. */
  lemma NoRoomOnPrefilled(p: nat)
    ensures var k := CAPACITY * PREFILLED_INDEX;
            Current(p, k) == PREFILLED_INDEX - 1 && Load(p, k, PREFILLED_INDEX - 1) == CAPACITY
            && Load(p, k, PREFILLED_INDEX) == p && TableSize(p, k) == BASE_BRIDGES
  {
  }

  lemma NestedCountIsGrowth(p: nat, k: nat)
    requires p < CAPACITY
    ensures NestedCount(p, k) == TableSize(p, k) - BASE_BRIDGES
  {
  }

  /** All bridges are full: hang a new one on the first bridge that has none yet, which is the one nine
      places before the end of the grown table. */
  method OpenBridge(table: seq<Bridge>) returns (bridges: seq<Bridge>, added: Nested)
    requires |table| >= BASE_BRIDGES
    requires forall j :: 0 <= j < |table| ==>
               table[j].bus == FIRST_BUS + j && (table[j].bridged <==> j < |table| - BASE_BRIDGES)
    ensures added == NestedSlot(|table| - BASE_BRIDGES)
    ensures var i := |table| - BASE_BRIDGES;
            bridges == table[i := table[i].(bridged := true)] + [Bridge(FIRST_BUS + |table|, 0, false)]
  {
    bridges := table;
    var i := 0;
    while i < |table| - 1 && bridges[i].bridged
      invariant 0 <= i <= |table| - BASE_BRIDGES
    {
      i := i + 1;
    }
    var parent := bridges[i].bus;
    var new_ := bridges[|bridges| - 1].bus + 1;
    bridges := bridges + [Bridge(new_, 0, false)];
    added := Nested(new_, Slot(parent, 1));
    bridges := bridges[i := bridges[i].(bridged := true)];
  }

  /** The nine bridges of the machine, the fifth with its prefilled slots. */
  function InitialBridges(p: nat): (t: seq<Bridge>)
    ensures TableOk(p, 0, t)
  {
    [Bridge(3, 0, false), Bridge(4, 0, false), Bridge(5, 0, false), Bridge(6, 0, false), Bridge(7, p, false),
     Bridge(8, 0, false), Bridge(9, 0, false), Bridge(10, 0, false), Bridge(11, 0, false)]
  }

  /** Finding a place for one disk, the body of the loop: stay, move on, or open a nested bridge. */
  method PlaceOne(table: seq<Bridge>, current: nat, ghost p: nat, ghost k: nat)
    returns (outcome: Outcome, bridges: seq<Bridge>, bid: nat, slot: Slot, added: seq<Nested>)
    requires p < CAPACITY || k <= CAPACITY * PREFILLED_INDEX
    requires TableOk(p, k, table) && current == Current(p, k)
    ensures outcome == if p >= CAPACITY && k == CAPACITY * PREFILLED_INDEX then LostTrack else Placed
    ensures outcome.Placed? ==> TableOk(p, k + 1, bridges) && bid == Current(p, k + 1) && slot == DiskSlot(p, k)
    ensures outcome.Placed? ==>
              |bridges| == |table| + |added|
              && added == if added == [] then [] else [NestedSlot(|table| - BASE_BRIDGES)]
  {
    hide DiskSlot, Position, Load, Current, TableSize, TableOk;
    ReadTable(p, k, table);
    if p < CAPACITY || k < CAPACITY * PREFILLED_INDEX {
      NextDisk(p, k);
      TableStep(p, k, table);
    } else {
      NoRoomOnPrefilled(p);
    }
    bridges, bid, slot, added := table, current, Slot(0, 0), [];
    if bridges[bid].devices >= CAPACITY {
      if bid == |bridges| - 1 {
        if forall x :: x in bridges ==> x.bridged {
          return RanOutOfSlots, bridges, bid, slot, added;
        }
        var nested;
        bridges, nested := OpenBridge(bridges);
        added := [nested];
        bid := bid + 1;
      } else {
        bid := bid + 1;
        if bridges[bid].devices >= CAPACITY {
          return LostTrack, bridges, bid, slot, added;
        }
      }
    }
    var addr := 2 + bridges[bid].devices;
    slot := Slot(bridges[bid].bus, addr);
    bridges := bridges[bid := bridges[bid].(devices := bridges[bid].devices + 1)];
    outcome := Placed;
  }

  /** The disk loop of `QemuConsole.connect`. With room left on the prefilled bridge no error is
      reachable for any number of disks; "ran out of slots" is never reachable. */
  method PlaceDisks(p: nat, n: nat)
    returns (outcome: Outcome, disks: seq<Slot>, nested: seq<Nested>)
    ensures outcome == if p >= CAPACITY && n > CAPACITY * PREFILLED_INDEX then LostTrack else Placed
    ensures outcome.Placed? ==> |disks| == n && forall k :: 0 <= k < n ==> disks[k] == DiskSlot(p, k)
    ensures outcome.Placed? && p < CAPACITY ==>
              |nested| == NestedCount(p, n) && forall j :: 0 <= j < |nested| ==> nested[j] == NestedSlot(j)
  {
    hide DiskSlot, Position, Load, Current, TableSize, NestedCount, TableOk, InitialBridges;
    disks, nested := [], [];
    var bridges := InitialBridges(p);
    var bid := 0;
    ReadTable(p, 0, bridges);
    CurrentStart(p);
    for diskId := 0 to n
      invariant p < CAPACITY || diskId <= CAPACITY * PREFILLED_INDEX
      invariant TableOk(p, diskId, bridges) && bid == Current(p, diskId)
      invariant |nested| == |bridges| - BASE_BRIDGES
      invariant forall j :: 0 <= j < |nested| ==> nested[j] == NestedSlot(j)
      invariant |disks| == diskId && forall k :: 0 <= k < diskId ==> disks[k] == DiskSlot(p, k)
    {
      var slot, added;
      outcome, bridges, bid, slot, added := PlaceOne(bridges, bid, p, diskId);
      if !outcome.Placed? {
        return;
      }
      nested := nested + added;
      disks := disks + [slot];
    }
    outcome := Placed;
    ReadTable(p, n, bridges);
    if p < CAPACITY {
      NestedCountIsGrowth(p, n);
    }
  }

  lemma CurrentStart(p: nat)
    ensures Current(p, 0) == 0 && TableSize(p, 0) == BASE_BRIDGES
  {
  }

  // ----- The whole machine -----

  /** The six bridges on the PHBs, `pcie.6` to `pcie.11`. */
  function BaseBridges(): seq<Slot> {
    [Slot(0, 0), Slot(1, 0), Slot(2, 0), Slot(3, 0), Slot(4, 0), Slot(5, 0)]
  }

  function Prefilled(cdrom: bool): seq<Slot> {
    if cdrom then [Slot(7, 2), Slot(7, 3)] else [Slot(7, 2)]
  }

  /** Every slot that carries a device: base bridges, NIC and CD-ROM, nested bridges, disks. */
  function Wiring(cdrom: bool, n: nat): seq<Slot> {
    var p := |Prefilled(cdrom)|;
    BaseBridges() + Prefilled(cdrom) + seq(NestedCount(p, n), j requires 0 <= j => NestedSlot(j).at)
    + seq(n, k requires 0 <= k => DiskSlot(p, k))
  }

  /** `QemuConsole.connect`, restricted to the (bus, address) pairs on its command line. */
  method Connect(cdrom: bool, n: nat) returns (slots: seq<Slot>)
    ensures slots == Wiring(cdrom, n)
  {
    slots := BaseBridges() + [Slot(7, 2)];
    var prefilled := 1;
    if cdrom {
      slots := slots + [Slot(7, 3)];
      prefilled := prefilled + 1;
    }
    assert slots == BaseBridges() + Prefilled(cdrom) && prefilled == |Prefilled(cdrom)|;
    var outcome, disks, nested := PlaceDisks(prefilled, n);
    var bridgeSlots: seq<Slot> := [];
    for j := 0 to |nested|
      invariant bridgeSlots == seq(j, i requires 0 <= i => NestedSlot(i).at)
    {
      bridgeSlots := bridgeSlots + [nested[j].at];
    }
    assert disks == seq(n, k requires 0 <= k => DiskSlot(prefilled, k));
    slots := slots + bridgeSlots + disks;
  }

  /** No place is wasted: every slot up to that of the last disk, with an address from 2 to 31, carries a disk
      or is prefilled. */
  lemma NoGaps(p: nat, n: nat, s: Slot)
    requires p < CAPACITY && n > 0
    requires s.bus >= 3 && 2 <= s.addr <= 31
    requires var last := DiskSlot(p, n - 1); s.bus < last.bus || (s.bus == last.bus && s.addr <= last.addr)
    ensures (s.bus == 7 && s.addr < 2 + p) || exists k :: 0 <= k < n && DiskSlot(p, k) == s
  {
    var q := 30 * (s.bus - 3) + (s.addr - 2);
    if !(s.bus == 7 && s.addr < 2 + p) {
      var k := if q < 120 then q else q - p;
      assert Position(p, k) == q && DiskSlot(p, k) == s;
      assert k < n;
    }
  }

  /** Different disks never meet, and stay out of the prefilled slots and of addresses 0 and 1. */
  lemma DisksDisjoint(p: nat, a: nat, b: nat)
    requires p < CAPACITY && a < b
    ensures DiskSlot(p, a) != DiskSlot(p, b)
    ensures 2 <= DiskSlot(p, a).addr <= 31
    ensures DiskSlot(p, a).bus == FIRST_BUS + PREFILLED_INDEX ==> DiskSlot(p, a).addr >= 2 + p
  {
    var x, y := Position(p, a), Position(p, b);
    assert x < y;
    assert x == CAPACITY * (x / CAPACITY) + x % CAPACITY;
    assert y == CAPACITY * (y / CAPACITY) + y % CAPACITY;
  }

  /** No two devices share a (bus, address) pair, whatever the number of disks. */
  lemma NoSharedSlot(cdrom: bool, n: nat, a: nat, b: nat)
    requires a < b < |Wiring(cdrom, n)|
    ensures Wiring(cdrom, n)[a] != Wiring(cdrom, n)[b]
  {
    var p := |Prefilled(cdrom)|;
    var fixed := BaseBridges() + Prefilled(cdrom);
    var m := NestedCount(p, n);
    var firstDisk := |fixed| + m;
    assert forall i :: 0 <= i < |fixed| ==> Wiring(cdrom, n)[i] == fixed[i];
    if b >= firstDisk {
      var kb := b - firstDisk;
      assert Wiring(cdrom, n)[b] == DiskSlot(p, kb);
      if a >= firstDisk {
        DisksDisjoint(p, a - firstDisk, kb);
      } else {
        DisksDisjoint(p, kb, kb + 1);
      }
    }
  }

  /** The bridges form a forest: bridge `12 + j` hangs in slot 1 of the lower bus `3 + j`, which is a
      PHB, a base bridge or an earlier nested bridge, and no bus carries two nested bridges. */
  lemma BridgeForest(p: nat, n: nat, j: nat)
    requires p < CAPACITY && j < NestedCount(p, n)
    ensures var b := NestedSlot(j);
            && b.at.addr == 1 && b.at.bus < b.bus
            && (b.at.bus < FIRST_BUS + BASE_BRIDGES || exists i :: 0 <= i < j && NestedSlot(i).bus == b.at.bus)
            && forall i :: 0 <= i < NestedCount(p, n) && i != j ==> NestedSlot(i).at.bus != b.at.bus
  {
    if NestedSlot(j).at.bus >= FIRST_BUS + BASE_BRIDGES {
      assert NestedSlot(j - BASE_BRIDGES).bus == NestedSlot(j).at.bus;
    }
  }

  /** Every disk sits on a bus that exists, and no nested bridge is added that carries no disk. */
  lemma NestedBridgesAreUsed(p: nat, n: nat, k: nat)
    requires p < CAPACITY && k < n
    ensures DiskSlot(p, k).bus < FIRST_BUS + BASE_BRIDGES + NestedCount(p, n)
    ensures NestedCount(p, n) > 0 ==> DiskSlot(p, n - 1).bus == NestedSlot(NestedCount(p, n) - 1).bus
  {
    NestedCountIsGrowth(p, n);
    assert Position(p, k) <= Position(p, n - 1);
  }
}
