/**
 * Declared disks, the element array sent to CreateVM and ExpandVMDisks, and
 * the rule that decides whether a powered-off VM's disks must be grown.
 */
module Disks {
  import opened Common

  /** A declared disk: optional target size in bytes, source image, thin or thick. */
  datatype Disk = Disk(size: Option<int>, vhDisk: string, dynamic: bool)

  /** One element of the disk array the remote functions receive (VmDiskElem). */
  datatype DiskElem = DiskElem(sizeMB: int, vhDisk: string, dynamic: bool)

  /** A disk as the remote side reports it, sizes in bytes. */
  datatype VirtualDisk = VirtualDisk(size: int, maximumSize: int)

  /** Whole mebibytes of a declared size; an absent size counts as 0. */
  function SizeMB(size: Option<int>): (mb: int)
    ensures size.None? ==> mb == 0
    ensures size.Some? && size.value >= 0 ==> 0 <= mb && mb * MiB <= size.value < mb * MiB + MiB
    ensures size.Some? && size.value < 0 ==> mb <= 0 && mb * MiB - MiB < size.value <= mb * MiB
  {
    if size.None? then 0 else ToMiB(size.value)
  }

  /** The element for one disk: size in mebibytes, image and flag copied. */
  function ElemOf(d: Disk): DiskElem
  {
    DiskElem(SizeMB(d.size), d.vhDisk, d.dynamic)
  }

  /** The element array of makeDisksJSON: one element per disk, in order. */
  function DiskElems(disks: seq<Disk>): (elems: seq<DiskElem>)
    ensures |elems| == |disks|
    ensures forall i :: 0 <= i < |disks| ==> elems[i] == ElemOf(disks[i])
  {
    seq(|disks|, i requires 0 <= i < |disks| => ElemOf(disks[i]))
  }

  /**
   * makeDisksJSON up to the JSON encoding: allocates the element array and
   * fills each element's three fields in place.
   */
  method MakeDiskElems(disks: seq<Disk>) returns (elems: seq<DiskElem>)
    ensures |elems| == |disks|
    ensures forall i :: 0 <= i < |disks| ==>
      elems[i].sizeMB == SizeMB(disks[i].size) && elems[i].vhDisk == disks[i].vhDisk && elems[i].dynamic == disks[i].dynamic
    ensures elems == DiskElems(disks)
  {
    var diskarr := new DiskElem[|disks|];
    for i := 0 to |disks|
      invariant forall j :: 0 <= j < i ==> diskarr[j] == ElemOf(disks[j])
    {
      var d := disks[i];
      if d.size.None? {
        diskarr[i] := diskarr[i].(sizeMB := 0);
      } else {
        diskarr[i] := diskarr[i].(sizeMB := ToMiB(d.size.value));
      }
      diskarr[i] := diskarr[i].(vhDisk := d.vhDisk);
      diskarr[i] := diskarr[i].(dynamic := d.dynamic);
    }
    elems := diskarr[..];
  }

  /**
   * The per-disk test of the expand loop: a declared size whose last-known
   * maximum is more than one mebibyte short (the slack is for rounding).
   */
  predicate ExpandNeeded(d: Disk, v: VirtualDisk)
  {
    d.size.Some? && v.maximumSize < d.size.value - MiB
  }

  /**
   * The loop indexes `VirtualDisks[i]` only for disks that have a size, so
   * it stays in range exactly when every sized disk has a reported
   * counterpart.
   */
  predicate IndexedSafely(disks: seq<Disk>, vds: seq<VirtualDisk>)
  {
    forall i :: |vds| <= i < |disks| ==> disks[i].size.None?
  }

  /** Some declared disk needs growing. */
  predicate AnyExpandNeeded(disks: seq<Disk>, vds: seq<VirtualDisk>)
  {
    exists i :: 0 <= i < |disks| && i < |vds| && ExpandNeeded(disks[i], vds[i])
  }

  /**
   * The `doexpand` loop of the powered-off branch. Indexing the reported
   * disks past their end is a run-time panic of the controller: `panics`
   * reports it, and then `doexpand` means nothing.
   */
  method NeedsExpand(disks: seq<Disk>, vds: seq<VirtualDisk>) returns (doexpand: bool, panics: bool)
    ensures panics <==> !IndexedSafely(disks, vds)
    ensures !panics ==> (doexpand <==> AnyExpandNeeded(disks, vds))
  {
    doexpand := false;
    panics := false;
    for i := 0 to |disks|
      invariant forall j :: |vds| <= j < i ==> disks[j].size.None?
      invariant doexpand <==> exists j :: 0 <= j < i && j < |vds| && ExpandNeeded(disks[j], vds[j])
    {
      if disks[i].size.Some? {
        if i >= |vds| {
          panics := true;
          return;
        }
        if vds[i].maximumSize < disks[i].size.value - MiB {
          doexpand := true;
        }
      }
    }
  }

  /** The disks after Reconcile's patch-helper workaround: an absent size becomes 0. */
  function WithSizes(disks: seq<Disk>): (r: seq<Disk>)
    ensures |r| == |disks|
    ensures forall i :: 0 <= i < |disks| ==> r[i].size.Some?
    ensures forall i :: 0 <= i < |disks| && disks[i].size.Some? ==> r[i] == disks[i]
    ensures forall i :: 0 <= i < |disks| && disks[i].size.None? ==> r[i] == disks[i].(size := Some(0))
  {
    seq(|disks|, i requires 0 <= i < |disks| =>
      if disks[i].size.None? then disks[i].(size := Some(0)) else disks[i])
  }

  /** The workaround loop at the top of Reconcile, on a copy of the disk list. */
  method FillDiskSizes(disks: seq<Disk>) returns (filled: seq<Disk>)
    ensures filled == WithSizes(disks)
  {
    filled := disks;
    for i := 0 to |disks|
      invariant |filled| == |disks|
      invariant forall j :: 0 <= j < i ==> filled[j] == WithSizes(disks)[j]
      invariant forall j :: i <= j < |disks| ==> filled[j] == disks[j]
    {
      if filled[i].size.None? {
        filled := filled[i := filled[i].(size := Some(0))];
      }
    }
  }

  /** With every size present, the expand loop never indexes out of range. */
  lemma SizedDisksNeedCounterparts(disks: seq<Disk>, vds: seq<VirtualDisk>)
    requires forall i :: 0 <= i < |disks| ==> disks[i].size.Some?
    ensures IndexedSafely(disks, vds) <==> |disks| <= |vds|
  {
    if |disks| > |vds| {
      assert disks[|vds|].size.Some?;
    }
  }
}
