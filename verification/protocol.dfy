/**
 The reference bring-up protocol of the pchar module: the order in which
 resources are acquired, which kernel call decides how far bring-up gets,
 and what a failed bring-up must leave behind (everything acquired so far,
 released newest first).
 */
module Protocol {
  import opened Ledger
  import opened Kernel

  /**
   The k-th resource a full bring-up of `n` devices acquires: the table,
   the n buffers, the number region, the class, the n device files and
   the n cdevs, each per-device stage in ascending device order.
   */
  function PlanItem(n: nat, major: nat, k: nat): Resource {
    if k == 0 then Table
    else if k <= n then Fifo(k - 1)
    else if k == n + 1 then Region(MkDev(major, 0), n)
    else if k == n + 2 then Class
    else if k < 2 * n + 3 then DeviceFile(MkDev(major, k - n - 3))
    else Cdev(k - 2 * n - 3, MkDev(major, k - 2 * n - 3))
  }

  function PlanSize(n: nat): nat {
    3 * n + 3
  }

  function Plan(n: nat, major: nat): seq<Resource> {
    seq(PlanSize(n), k requires 0 <= k < PlanSize(n) => PlanItem(n, major, k))
  }

  /** Buffers 0, ..., k-1. */
  function Fifos(k: nat): seq<Resource> {
    seq(k, j requires 0 <= j < k => Fifo(j))
  }

  /** Buffers k-1, ..., 0: the order the rollback frees them in. */
  function FifosDown(k: nat): seq<Resource> {
    seq(k, j requires 0 <= j < k => Fifo(k - 1 - j))
  }

  /** Device files 0, ..., k-1. */
  function DeviceFiles(major: nat, k: nat): seq<Resource> {
    seq(k, j requires 0 <= j < k => DeviceFile(MkDev(major, j)))
  }

  /** Cdevs 0, ..., k-1, each with the number it is added under. */
  function Cdevs(major: nat, k: nat): seq<Resource> {
    seq(k, j requires 0 <= j < k => Cdev(j, MkDev(major, j)))
  }

  /** Device files k-1, ..., 0. */
  function DeviceFilesDown(major: nat, k: nat): seq<Resource> {
    seq(k, j requires 0 <= j < k => DeviceFile(MkDev(major, k - 1 - j)))
  }

  /** Cdevs k-1, ..., 0, each with the number it was added under. */
  function CdevsDown(major: nat, k: nat): seq<Resource> {
    seq(k, j requires 0 <= j < k => Cdev(k - 1 - j, MkDev(major, k - 1 - j)))
  }

  /** Left to release, newest first, once the number region has been given back. */
  function AfterRegion(n: nat): seq<Resource> {
    FifosDown(n) + [Table]
  }

  /** Left to release once the class has been destroyed. */
  function AfterClass(n: nat, major: nat): seq<Resource> {
    [Region(MkDev(major, 0), n)] + AfterRegion(n)
  }

  /** Left to release once every device file has been destroyed. */
  function AfterDevices(n: nat, major: nat): seq<Resource> {
    [Class] + AfterClass(n, major)
  }

  /** Left to release once every cdev has been deleted. */
  function AfterCdevs(n: nat, major: nat): seq<Resource> {
    DeviceFilesDown(major, n) + AfterDevices(n, major)
  }

  /** The smallest index below `n` at which `ok` fails, or `n` when it never does. */
  function FirstFailure(n: nat, ok: nat -> bool): (k: nat)
    ensures k <= n
    ensures forall j :: 0 <= j < k ==> ok(j)
    ensures k < n ==> !ok(k)
  {
    FirstFailureFrom(0, n, ok)
  }

  function FirstFailureFrom(i: nat, n: nat, ok: nat -> bool): (k: nat)
    requires i <= n
    ensures i <= k <= n
    ensures forall j :: i <= j < k ==> ok(j)
    ensures k < n ==> !ok(k)
    decreases n - i
  {
    if i == n then n
    else if !ok(i) then i
    else FirstFailureFrom(i + 1, n, ok)
  }

  /** Whether kfifo_alloc succeeds for device j. */
  function FifoAllocated(o: Oracle): nat -> bool {
    (j: nat) => o.kfifoRet(j) == 0
  }

  /** Whether cdev_add succeeds for device j. */
  function CdevAdded(o: Oracle): nat -> bool {
    (j: nat) => o.cdevRet(j) == 0
  }

  lemma OracleViews(o: Oracle)
    ensures forall j: nat :: FifoAllocated(o)(j) <==> o.kfifoRet(j) == 0
    ensures forall j: nat :: CdevAdded(o)(j) <==> o.cdevRet(j) == 0
  {
  }

  /** How a bring-up ends: its return value and how many resources of the plan it acquired. */
  datatype Outcome = Outcome(ret: int, acquired: nat)

  /**
   The stage that decides bring-up: the first failing kernel call stops it,
   with that call's error (or -ENOMEM for the table, -1 for an IS_ERR
   object); if none fails the whole plan is acquired and 0 returned.
   */
  function InitOutcome(n: nat, o: Oracle): Outcome {
    if !o.kmallocOk then Outcome(-ENOMEM, 0)
    else
      var kf := FirstFailure(n, FifoAllocated(o));
      if kf < n then Outcome(o.kfifoRet(kf), 1 + kf)
      else if o.regionRet != 0 then Outcome(o.regionRet, 1 + n)
      else if !o.classOk then Outcome(-1, 2 + n)
      else
        var kd := FirstFailure(n, o.deviceOk);
        if kd < n then Outcome(-1, 3 + n + kd)
        else
          var kc := FirstFailure(n, CdevAdded(o));
          if kc < n then Outcome(o.cdevRet(kc), 3 + 2 * n + kc)
          else Outcome(0, PlanSize(n))
  }

  /**
   The trace a correct bring-up issues: the acquisitions of the plan up to
   where it stopped, followed, on failure, by their releases newest first.
   */
  function InitTrace(n: nat, o: Oracle): seq<Event<Resource>> {
    var out := InitOutcome(n, o);
    var done := Plan(n, o.regionMajor)[..out.acquired];
    if out.ret == 0 then Acquires(done) else Mirror(done)
  }

  /** Bring-up returns 0 exactly when it acquired the whole plan, and never acquires past it. */
  lemma OutcomeShape(n: nat, o: Oracle)
    ensures InitOutcome(n, o).acquired <= PlanSize(n)
    ensures InitOutcome(n, o).ret == 0 <==> InitOutcome(n, o).acquired == PlanSize(n)
  {
  }

  /** Bring-up succeeds exactly when every kernel call it makes succeeds. */
  lemma SuccessIffAllCallsSucceed(n: nat, o: Oracle)
    ensures InitOutcome(n, o).ret == 0 <==>
      && o.kmallocOk
      && (forall j :: 0 <= j < n ==> o.kfifoRet(j) == 0)
      && o.regionRet == 0
      && o.classOk
      && (forall j :: 0 <= j < n ==> o.deviceOk(j))
      && (forall j :: 0 <= j < n ==> o.cdevRet(j) == 0)
  {
    OracleViews(o);
    if InitOutcome(n, o).ret == 0 {
      assert o.kmallocOk;
      var kf := FirstFailure(n, FifoAllocated(o));
      assert kf == n;
      var kd := FirstFailure(n, o.deviceOk);
      assert kd == n;
      var kc := FirstFailure(n, CdevAdded(o));
      assert kc == n;
    }
  }

  /** No resource appears twice in the plan. */
  lemma PlanDistinct(n: nat, major: nat)
    ensures Distinct(Plan(n, major))
  {
  }

  /** A failed bring-up leaves nothing held: it used the resources as a stack and emptied it. */
  lemma FailedInitBalanced(n: nat, o: Oracle)
    requires InitOutcome(n, o).ret != 0
    ensures Replay([], InitTrace(n, o)) == Some([])
    ensures Acquired(InitTrace(n, o)) == Released(InitTrace(n, o))
  {
    var p := Plan(n, o.regionMajor);
    var done := p[..InitOutcome(n, o).acquired];
    PlanDistinct(n, o.regionMajor);
    assert Distinct(done) by {
      forall i, j | 0 <= i < j < |done|
        ensures done[i] != done[j]
      {
        assert done[i] == p[i] && done[j] == p[j];
      }
    }
    MirrorConserves(done);
  }

  /** A successful bring-up holds the whole plan, in plan order, and nothing else. */
  lemma SucceededInitHoldsPlan(n: nat, o: Oracle)
    requires InitOutcome(n, o).ret == 0
    ensures Replay([], InitTrace(n, o)) == Some(Plan(n, o.regionMajor))
  {
    var p := Plan(n, o.regionMajor);
    assert p[..InitOutcome(n, o).acquired] == p;
    PlanDistinct(n, o.regionMajor);
    assert [] + p == p;
    ReplayAcquires([], p);
  }

  /** The full teardown order: cdevs, device files, class, region, buffers, table. */
  lemma TeardownOrder(n: nat, major: nat)
    ensures Reverse(Plan(n, major)) ==
      CdevsDown(major, n) + DeviceFilesDown(major, n) + [Class, Region(MkDev(major, 0), n)]
      + FifosDown(n) + [Table]
  {
  }

  /** Releasing the whole plan newest first, starting from a full bring-up, empties the ledger. */
  lemma TeardownBalanced(n: nat, major: nat)
    ensures Replay(Plan(n, major), Releases(Reverse(Plan(n, major)))) == Some([])
  {
    assert [] + Plan(n, major) == Plan(n, major);
    ReplayReleases([], Plan(n, major));
  }

  /**
   A load that succeeds followed by an unload: the resources are used as one
   stack over the module's whole lifetime, and nothing is held at the end.
   */
  lemma LoadUnloadBalanced(n: nat, o: Oracle)
    requires InitOutcome(n, o).ret == 0
    ensures Replay([], InitTrace(n, o) + Releases(Reverse(Plan(n, o.regionMajor)))) == Some([])
  {
    ReplayAppend([], InitTrace(n, o), Releases(Reverse(Plan(n, o.regionMajor))));
    SucceededInitHoldsPlan(n, o);
    TeardownBalanced(n, o.regionMajor);
  }

  /**
   At every point of bring-up, successful or not, the calls issued so far are
   a legal stack discipline and no resource is held twice.
   */
  lemma InitNeverHoldsTwice(n: nat, o: Oracle, k: nat)
    requires k <= |InitTrace(n, o)|
    ensures Replay([], InitTrace(n, o)[..k]).Some?
    ensures Distinct(Replay([], InitTrace(n, o)[..k]).value)
  {
    var t := InitTrace(n, o);
    assert t == t[..k] + t[k..];
    ReplayAppend([], t[..k], t[k..]);
    if InitOutcome(n, o).ret == 0 {
      SucceededInitHoldsPlan(n, o);
    } else {
      FailedInitBalanced(n, o);
    }
    ReplayKeepsDistinct([], t[..k]);
  }

  /** Table allocation fails: nothing is touched and -ENOMEM is returned. */
  lemma TableFailure(n: nat, o: Oracle)
    requires !o.kmallocOk
    ensures InitOutcome(n, o).ret == -ENOMEM
    ensures InitTrace(n, o) == []
  {
  }

  /** kfifo_alloc fails at device k: buffers k-1, ..., 0 are freed, then the table. */
  lemma KfifoFailure(n: nat, o: Oracle, k: nat)
    requires o.kmallocOk
    requires k < n
    requires forall j :: 0 <= j < k ==> o.kfifoRet(j) == 0
    requires o.kfifoRet(k) != 0
    ensures InitOutcome(n, o).ret == o.kfifoRet(k)
    ensures InitTrace(n, o) == Acquires([Table] + Fifos(k)) + Releases(FifosDown(k) + [Table])
  {
    OracleViews(o);
    var kf := FirstFailure(n, FifoAllocated(o));
    assert kf == k;
    var done := Plan(n, o.regionMajor)[..1 + k];
    assert done == [Table] + Fifos(k);
    assert Reverse(done) == FifosDown(k) + [Table];
  }

  /**
   alloc_chrdev_region fails: every buffer is freed, n-1 down to 0, then the
   table; no class, device-file or cdev release is issued.
   */
  lemma RegionFailure(n: nat, o: Oracle)
    requires o.kmallocOk
    requires forall j :: 0 <= j < n ==> o.kfifoRet(j) == 0
    requires o.regionRet != 0
    ensures InitOutcome(n, o).ret == o.regionRet
    ensures InitTrace(n, o) == Acquires([Table] + Fifos(n)) + Releases(AfterRegion(n))
    ensures forall e :: e in InitTrace(n, o) ==> e.res == Table || e.res.Fifo?
  {
  }

  /**
   class_create fails: the number region is released with the base and count
   it was granted, then the buffers n-1 down to 0, then the table; -1 is returned.
   */
  lemma ClassFailure(n: nat, o: Oracle)
    requires o.kmallocOk
    requires forall j :: 0 <= j < n ==> o.kfifoRet(j) == 0
    requires o.regionRet == 0
    requires !o.classOk
    ensures InitOutcome(n, o).ret == -1
    ensures InitTrace(n, o) ==
      Acquires([Table] + Fifos(n) + [Region(MkDev(o.regionMajor, 0), n)])
      + Releases(AfterClass(n, o.regionMajor))
  {
  }

  /** FirstFailure is the only index with its three properties. */
  lemma FirstFailureAt(n: nat, ok: nat -> bool, k: nat)
    requires k <= n
    requires forall j :: 0 <= j < k ==> ok(j)
    requires k < n ==> !ok(k)
    ensures FirstFailure(n, ok) == k
  {
  }

  /** device_create is the first call to fail, at device k. */
  lemma DeviceOutcome(n: nat, o: Oracle, k: nat)
    requires o.kmallocOk
    requires forall j :: 0 <= j < n ==> o.kfifoRet(j) == 0
    requires o.regionRet == 0
    requires o.classOk
    requires k < n
    requires forall j :: 0 <= j < k ==> o.deviceOk(j)
    requires !o.deviceOk(k)
    ensures InitOutcome(n, o) == Outcome(-1, 3 + n + k)
  {
  }

  /**
   device_create fails at device k: device files k-1 down to 0 are destroyed,
   then the class, then the region, then every buffer and the table; -1 is returned.
   */
  lemma DeviceFailure(n: nat, o: Oracle, k: nat)
    requires o.kmallocOk
    requires forall j :: 0 <= j < n ==> o.kfifoRet(j) == 0
    requires o.regionRet == 0
    requires o.classOk
    requires k < n
    requires forall j :: 0 <= j < k ==> o.deviceOk(j)
    requires !o.deviceOk(k)
    ensures InitOutcome(n, o).ret == -1
    ensures InitTrace(n, o) ==
      Acquires([Table] + Fifos(n) + [Region(MkDev(o.regionMajor, 0), n)] + [Class]
               + DeviceFiles(o.regionMajor, k))
      + Releases(DeviceFilesDown(o.regionMajor, k) + AfterDevices(n, o.regionMajor))
  {
    DeviceOutcome(n, o, k);
    DeviceUnwind(n, o.regionMajor, k);
  }

  /** The plan's prefix up to device file k, and the order in which it is unwound. */
  lemma DeviceUnwind(n: nat, m: nat, k: nat)
    requires k < n
    ensures Plan(n, m)[..3 + n + k] ==
      [Table] + Fifos(n) + [Region(MkDev(m, 0), n)] + [Class] + DeviceFiles(m, k)
    ensures Reverse(Plan(n, m)[..3 + n + k]) == DeviceFilesDown(m, k) + AfterDevices(n, m)
  {
  }

  /** cdev_add is the first call to fail, at device k. */
  lemma CdevOutcome(n: nat, o: Oracle, k: nat)
    requires o.kmallocOk
    requires forall j :: 0 <= j < n ==> o.kfifoRet(j) == 0
    requires o.regionRet == 0
    requires o.classOk
    requires forall j :: 0 <= j < n ==> o.deviceOk(j)
    requires k < n
    requires forall j :: 0 <= j < k ==> o.cdevRet(j) == 0
    requires o.cdevRet(k) != 0
    ensures InitOutcome(n, o) == Outcome(o.cdevRet(k), 3 + 2 * n + k)
  {
    OracleViews(o);
    FirstFailureAt(n, FifoAllocated(o), n);
    FirstFailureAt(n, o.deviceOk, n);
    FirstFailureAt(n, CdevAdded(o), k);
  }

  /**
   cdev_add fails at device k: cdevs k-1 down to 0 are deleted, then every
   device file n-1 down to 0, the class, the region, every buffer and the
   table; cdev_add's error is returned.
   */
  lemma CdevFailure(n: nat, o: Oracle, k: nat)
    requires o.kmallocOk
    requires forall j :: 0 <= j < n ==> o.kfifoRet(j) == 0
    requires o.regionRet == 0
    requires o.classOk
    requires forall j :: 0 <= j < n ==> o.deviceOk(j)
    requires k < n
    requires forall j :: 0 <= j < k ==> o.cdevRet(j) == 0
    requires o.cdevRet(k) != 0
    ensures InitOutcome(n, o).ret == o.cdevRet(k)
    ensures InitTrace(n, o) ==
      Acquires([Table] + Fifos(n) + [Region(MkDev(o.regionMajor, 0), n)] + [Class]
               + DeviceFiles(o.regionMajor, n) + Cdevs(o.regionMajor, k))
      + Releases(CdevsDown(o.regionMajor, k) + AfterCdevs(n, o.regionMajor))
  {
    CdevOutcome(n, o, k);
    CdevUnwind(n, o.regionMajor, k);
  }

  /** When cdev_add fails at device k, cdev k is never deleted, nor any cdev after it. */
  lemma CdevFailureSparesFailedCdev(n: nat, o: Oracle, k: nat)
    requires o.kmallocOk
    requires forall j :: 0 <= j < n ==> o.kfifoRet(j) == 0
    requires o.regionRet == 0
    requires o.classOk
    requires forall j :: 0 <= j < n ==> o.deviceOk(j)
    requires k < n
    requires forall j :: 0 <= j < k ==> o.cdevRet(j) == 0
    requires o.cdevRet(k) != 0
    ensures forall e :: e in InitTrace(n, o) && e.res.Cdev? ==> e.res.index < k
  {
    CdevOutcome(n, o, k);
    var m := o.regionMajor;
    var done := Plan(n, m)[..3 + 2 * n + k];
    assert InitTrace(n, o) == Mirror(done);
    MirrorResources(done);
    forall x | x in done && x.Cdev?
      ensures x.index < k
    {
      var q :| 0 <= q < |done| && done[q] == x;
      assert x == PlanItem(n, m, q);
    }
  }

  /** The plan's prefix up to cdev k, and the order in which it is unwound. */
  lemma CdevUnwind(n: nat, m: nat, k: nat)
    requires k < n
    ensures Plan(n, m)[..3 + 2 * n + k] ==
      [Table] + Fifos(n) + [Region(MkDev(m, 0), n)] + [Class] + DeviceFiles(m, n) + Cdevs(m, k)
    ensures Reverse(Plan(n, m)[..3 + 2 * n + k]) == CdevsDown(m, k) + AfterCdevs(n, m)
  {
  }

  /** The plan, stage by stage. */
  lemma PlanStages(n: nat, major: nat)
    ensures Plan(n, major) ==
      [Table] + Fifos(n) + [Region(MkDev(major, 0), n)] + [Class]
      + DeviceFiles(major, n) + Cdevs(major, n)
  {
  }

  /** Every call succeeds: the whole plan is acquired, in plan order, and 0 is returned. */
  lemma InitSuccess(n: nat, o: Oracle)
    requires o.kmallocOk
    requires forall j :: 0 <= j < n ==> o.kfifoRet(j) == 0
    requires o.regionRet == 0
    requires o.classOk
    requires forall j :: 0 <= j < n ==> o.deviceOk(j)
    requires forall j :: 0 <= j < n ==> o.cdevRet(j) == 0
    ensures InitOutcome(n, o).ret == 0
    ensures InitTrace(n, o) == Acquires(Plan(n, o.regionMajor))
  {
  }
}
