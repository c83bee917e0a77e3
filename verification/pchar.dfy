/**
 The pchar module's load and unload entry points (pchar_init, pchar_exit).

 Each kernel call is an entry in the returned trace: an acquisition when the
 call hands out a resource, a release when it gives one back. Whether an
 acquiring call succeeds is read from the oracle. The goto labels of
 pchar_init become nested labelled blocks: `break L` jumps to the code that
 follows block L, which is the code under label L in the source, and each
 handler falls through into the next one as the labels do. The per-device
 loops are methods of their own, named after the call they make, and so are
 the two inner rungs of the label ladder: RegisterDevices (from
 alloc_chrdev_region down to class_create_failed) and CreateDevices (from
 the device_create loop down to device_create_failed). Each is entered with
 the trace issued so far, and its failure returns to the caller's next
 handler, as falling through to the next label does. pchar_init's locals
 `i` and `devno` are shared by all its loops and labels, so every method
 takes and returns the values they hold: a loop's final index, -1 after a
 rollback loop, is what the next handler sees unless it resets it.
 */
module Pchar {
  import opened Ledger
  import opened Kernel
  import opened Protocol

  /** One entry of the device table: its buffer's size and its device number. */
  datatype PcharDevice = PcharDevice(bufSize: nat, devno: DevNo)

  /** The module's globals after a load: device count, major number, device table. */
  datatype Driver = Driver(devices: nat, major: nat, pdevs: seq<PcharDevice>)

  /** A fully loaded module: every device has a MAX-byte buffer and number MKDEV(major, i). */
  predicate Live(d: Driver) {
    && |d.pdevs| == d.devices
    && forall i :: 0 <= i < d.devices ==> d.pdevs[i] == PcharDevice(MAX, MkDev(d.major, i))
  }

  /**
   kfifo_alloc for devices 0, 1, ... until one fails: stops at the first
   failing device with its error, having allocated the buffers before it.
   */
  method AllocFifos(n: nat, o: Oracle, pdevs: seq<PcharDevice>)
    returns (ret: int, i: nat, pdevs': seq<PcharDevice>, t: seq<Event<Resource>>)
    requires |pdevs| == n
    ensures i == FirstFailure(n, FifoAllocated(o))
    ensures ret == 0 <==> i == n
    ensures i < n ==> ret == o.kfifoRet(i)
    ensures forall j :: 0 <= j < i ==> o.kfifoRet(j) == 0
    ensures t == Acquires(Fifos(i))
    ensures |pdevs'| == n
    ensures forall j :: 0 <= j < i ==> pdevs'[j].bufSize == MAX
  {
    OracleViews(o);
    ret, i, pdevs', t := 0, 0, pdevs, [];
    while i < n
      invariant i <= n
      invariant |pdevs'| == n
      invariant forall j :: 0 <= j < i ==> o.kfifoRet(j) == 0 && pdevs'[j].bufSize == MAX
      invariant t == Acquires(Fifos(i))
      invariant ret == 0
    {
      ret := o.kfifoRet(i);
      if ret != 0 {
        return;
      }
      pdevs' := pdevs'[i := pdevs'[i].(bufSize := MAX)];
      t := t + [Acquire(Fifo(i))];
      i := i + 1;
    }
  }

  /**
   device_create for devices 0, 1, ... until one fails; the local device
   number is left at the number of the device last attempted.
   */
  method CreateDeviceFiles(n: nat, major: nat, o: Oracle, devno: DevNo)
    returns (ret: int, i: nat, devno': DevNo, t: seq<Event<Resource>>)
    ensures i == FirstFailure(n, o.deviceOk)
    ensures ret == 0 <==> i == n
    ensures i < n ==> ret == -1 && devno' == MkDev(major, i)
    ensures forall j :: 0 <= j < i ==> o.deviceOk(j)
    ensures t == Acquires(DeviceFiles(major, i))
  {
    ret, i, devno', t := 0, 0, devno, [];
    while i < n
      invariant i <= n
      invariant forall j :: 0 <= j < i ==> o.deviceOk(j)
      invariant t == Acquires(DeviceFiles(major, i))
      invariant ret == 0
    {
      devno' := MkDev(major, i);
      if !o.deviceOk(i) {
        ret := -1;
        return;
      }
      t := t + [Acquire(DeviceFile(devno'))];
      i := i + 1;
    }
  }

  /**
   cdev_init and cdev_add for devices 0, 1, ... until one fails: each device
   attempted first sets the local device number to MKDEV(major, i) and
   records it in the table.
   */
  method AddCdevs(n: nat, major: nat, o: Oracle, devno: DevNo, pdevs: seq<PcharDevice>)
    returns (ret: int, i: nat, devno': DevNo, pdevs': seq<PcharDevice>, t: seq<Event<Resource>>)
    requires |pdevs| == n
    ensures i == FirstFailure(n, CdevAdded(o))
    ensures ret == 0 <==> i == n
    ensures i < n ==> ret == o.cdevRet(i) && devno' == MkDev(major, i)
    ensures forall j :: 0 <= j < i ==> o.cdevRet(j) == 0
    ensures t == Acquires(Cdevs(major, i))
    ensures |pdevs'| == n
    ensures forall j :: 0 <= j < n ==> pdevs'[j].bufSize == pdevs[j].bufSize
    ensures forall j :: 0 <= j < i ==> pdevs'[j].devno == MkDev(major, j)
  {
    OracleViews(o);
    ret, i, devno', pdevs', t := 0, 0, devno, pdevs, [];
    while i < n
      invariant i <= n
      invariant |pdevs'| == n
      invariant forall j :: 0 <= j < i ==> o.cdevRet(j) == 0 && pdevs'[j].devno == MkDev(major, j)
      invariant t == Acquires(Cdevs(major, i))
      invariant forall j :: 0 <= j < n ==> pdevs'[j].bufSize == pdevs[j].bufSize
      invariant ret == 0
    {
      devno' := MkDev(major, i);
      pdevs' := pdevs'[i := pdevs'[i].(devno := devno')];
      ret := o.cdevRet(i);
      if ret != 0 {
        return;
      }
      t := t + [Acquire(Cdev(i, devno'))];
      i := i + 1;
    }
  }

  /** cdev_del of cdevs count-1 down to 0, each named by the number stored in the table. */
  method DeleteCdevs(count: nat, major: nat, pdevs: seq<PcharDevice>) returns (i: int, t: seq<Event<Resource>>)
    requires count <= |pdevs|
    requires forall j :: 0 <= j < count ==> pdevs[j].devno == MkDev(major, j)
    ensures t == Releases(CdevsDown(major, count))
    ensures i == -1
  {
    t := [];
    i := count - 1;
    while i >= 0
      invariant -1 <= i < count
      invariant t == Releases(CdevsDown(major, count)[..count - 1 - i])
    {
      t := t + [Release(Cdev(i, pdevs[i].devno))];
      i := i - 1;
    }
  }

  /**
   device_destroy of device files count-1 down to 0. The loop reuses the
   caller's local device number, so it ends at MKDEV(major, 0) unless
   count is 0.
   */
  method DestroyDeviceFiles(count: nat, major: nat, devno: DevNo)
    returns (i: int, devno': DevNo, t: seq<Event<Resource>>)
    ensures t == Releases(DeviceFilesDown(major, count))
    ensures devno' == if count > 0 then MkDev(major, 0) else devno
    ensures i == -1
  {
    t, devno' := [], devno;
    i := count - 1;
    while i >= 0
      invariant -1 <= i < count
      invariant t == Releases(DeviceFilesDown(major, count)[..count - 1 - i])
      invariant devno' == if i + 1 < count then MkDev(major, i + 1) else devno
    {
      devno' := MkDev(major, i);
      t := t + [Release(DeviceFile(devno'))];
      i := i - 1;
    }
  }

  /** kfifo_free of buffers count-1 down to 0. */
  method FreeFifos(count: nat) returns (i: int, t: seq<Event<Resource>>)
    ensures t == Releases(FifosDown(count))
    ensures i == -1
  {
    t := [];
    i := count - 1;
    while i >= 0
      invariant -1 <= i < count
      invariant t == Releases(FifosDown(count)[..count - 1 - i])
    {
      t := t + [Release(Fifo(i))];
      i := i - 1;
    }
  }

  /**
   The device stage of pchar_init, entered with the table, every buffer, the
   number region and the class held (`trace` is what bring-up has issued so
   far): device_create, then cdev_init and cdev_add, for every device. On
   failure it runs the cdev_add_failed and device_create_failed handlers,
   ending with class_destroy, and returns the error together with the shared
   locals: the loop index, which the last rollback loop leaves at -1, and
   devno, which it leaves at MKDEV(major, 0).
   */
  method CreateDevices(n: nat, o: Oracle, major: nat, devno: DevNo, pdevs: seq<PcharDevice>,
                       trace: seq<Event<Resource>>)
    returns (ret: int, i: int, devno': DevNo, pdevs': seq<PcharDevice>, trace': seq<Event<Resource>>)
    requires o.kmallocOk
    requires forall j :: 0 <= j < n ==> o.kfifoRet(j) == 0
    requires o.regionRet == 0 && o.classOk && major == o.regionMajor
    requires devno == MkDev(major, 0)
    requires |pdevs| == n
    requires forall j :: 0 <= j < n ==> pdevs[j].bufSize == MAX
    requires trace == Acquires([Table] + Fifos(n) + [Region(devno, n)] + [Class])
    ensures ret == InitOutcome(n, o).ret
    ensures ret == 0 ==> trace' == InitTrace(n, o) && i == n
    ensures ret != 0 ==> trace' + Releases(AfterClass(n, major)) == InitTrace(n, o)
    ensures ret != 0 ==> devno' == MkDev(major, 0) && i == -1
    ensures ret == 0 ==> |pdevs'| == n
    ensures ret == 0 ==> forall j :: 0 <= j < n ==> pdevs'[j] == PcharDevice(MAX, MkDev(major, j))
  {
    ghost var expected := InitTrace(n, o);
    ghost var held: seq<Resource> := [Table] + Fifos(n) + [Region(devno, n)] + [Class];
    var t: seq<Event<Resource>>;
    devno', pdevs', trace' := devno, pdevs, trace;

    label deviceCreateFailed: {
    label cdevAddFailed: {
      // device_create for every device
      var k: nat;
      ret, k, devno', t := CreateDeviceFiles(n, major, o, devno');
      i := k;
      assert trace' + t == Acquires(held + DeviceFiles(major, k)) by {
        Extend(trace', held, t, DeviceFiles(major, k));
      }
      trace', held := trace' + t, held + DeviceFiles(major, k);
      if ret != 0 {
        assert ret == InitOutcome(n, o).ret
          && trace' + Releases(DeviceFilesDown(major, k) + AfterDevices(n, major)) == expected by {
          DeviceFailure(n, o, k);
        }
        break deviceCreateFailed;
      }

      // cdev_init and cdev_add for every device
      ret, k, devno', pdevs', t := AddCdevs(n, major, o, devno', pdevs');
      i := k;
      assert trace' + t == Acquires(held + Cdevs(major, k)) by {
        Extend(trace', held, t, Cdevs(major, k));
      }
      trace', held := trace' + t, held + Cdevs(major, k);
      if ret != 0 {
        assert ret == InitOutcome(n, o).ret
          && trace' + Releases(CdevsDown(major, k) + AfterCdevs(n, major)) == expected by {
          CdevFailure(n, o, k);
        }
        break cdevAddFailed;
      }

      assert ret == InitOutcome(n, o).ret && trace' == expected by {
        InitSuccess(n, o);
        PlanStages(n, major);
      }
      return;
    }
    // cdev_add_failed: delete cdevs i-1 down to 0, then every device file
    ghost var added: nat := i;
    i, t := DeleteCdevs(i, major, pdevs');
    assert (trace' + t) + Releases(AfterCdevs(n, major)) == expected by {
      Settle(trace', t, CdevsDown(major, added), AfterCdevs(n, major));
    }
    trace' := trace' + t;
    i := n;
    }
    // device_create_failed: destroy device files i-1 down to 0, then the class
    ghost var created: nat := i;
    assert trace' + Releases(DeviceFilesDown(major, created) + AfterDevices(n, major)) == expected;
    i, devno', t := DestroyDeviceFiles(i, major, devno');
    assert (trace' + t) + Releases(AfterDevices(n, major)) == expected by {
      Settle(trace', t, DeviceFilesDown(major, created), AfterDevices(n, major));
    }
    trace' := trace' + t;
    assert (trace' + [Release(Class)]) + Releases(AfterClass(n, major)) == expected by {
      SettleOne(trace', Class, AfterClass(n, major));
    }
    trace' := trace' + [Release(Class)];
  }

  /**
   The number-region stage of pchar_init, entered with the table and every
   buffer held (`trace` is what bring-up has issued so far), and with the
   shared locals `i`, which the kfifo_alloc loop left at n, and `devno`:
   alloc_chrdev_region and class_create, then the device stage. On failure
   it unwinds its own acquisitions down to unregister_chrdev_region, and
   returns the error and the shared locals; what is left to release is the
   buffers and the table, which the kfifo_alloc_failed handler frees once
   alloc_chrdev_region_failed has reset `i`.
   */
  method RegisterDevices(n: nat, o: Oracle, i: int, devno: DevNo, pdevs: seq<PcharDevice>,
                         trace: seq<Event<Resource>>)
    returns (ret: int, major: nat, i': int, devno': DevNo, pdevs': seq<PcharDevice>,
             trace': seq<Event<Resource>>)
    requires o.kmallocOk
    requires forall j :: 0 <= j < n ==> o.kfifoRet(j) == 0
    requires i == n
    requires |pdevs| == n
    requires forall j :: 0 <= j < n ==> pdevs[j].bufSize == MAX
    requires trace == Acquires([Table] + Fifos(n))
    ensures ret == InitOutcome(n, o).ret
    ensures ret == 0 ==> trace' == InitTrace(n, o)
    ensures ret != 0 ==> trace' + Releases(AfterRegion(n)) == InitTrace(n, o)
    ensures o.regionRet != 0 ==> i' == i && devno' == devno
    ensures o.regionRet == 0 && ret != 0 ==> devno' == MkDev(o.regionMajor, 0)
    ensures o.regionRet == 0 && !o.classOk ==> i' == i
    ensures o.regionRet == 0 && o.classOk && ret != 0 ==> i' == -1
    ensures ret == 0 ==> major == o.regionMajor && |pdevs'| == n
    ensures ret == 0 ==> forall j :: 0 <= j < n ==> pdevs'[j] == PcharDevice(MAX, MkDev(major, j))
  {
    ghost var expected := InitTrace(n, o);
    ghost var held: seq<Resource> := [Table] + Fifos(n);
    major, i', devno', pdevs', trace' := 0, i, devno, pdevs, trace;

    label classCreateFailed: {
      // alloc_chrdev_region for minors 0..n-1; its failure goes straight to
      // alloc_chrdev_region_failed, which is the caller's business
      ret := o.regionRet;
      if ret != 0 {
        assert ret == InitOutcome(n, o).ret && trace' + Releases(AfterRegion(n)) == expected by {
          RegionFailure(n, o);
        }
        return;
      }
      devno' := MkDev(o.regionMajor, 0);
      major := devno'.major;
      assert trace' + [Acquire(Region(devno', n))] == Acquires(held + [Region(devno', n)]) by {
        Extend(trace', held, [Acquire(Region(devno', n))], [Region(devno', n)]);
      }
      trace', held := trace' + [Acquire(Region(devno', n))], held + [Region(devno', n)];

      // class_create
      if !o.classOk {
        ret := -1;
        assert ret == InitOutcome(n, o).ret && trace' + Releases(AfterClass(n, major)) == expected by {
          ClassFailure(n, o);
        }
        break classCreateFailed;
      }
      assert trace' + [Acquire(Class)] == Acquires(held + [Class]) by {
        Extend(trace', held, [Acquire(Class)], [Class]);
      }
      trace' := trace' + [Acquire(Class)];

      ret, i', devno', pdevs', trace' := CreateDevices(n, o, major, devno', pdevs', trace');
      if ret == 0 {
        return;
      }
    }
    // class_create_failed: the shared devno is MKDEV(major, 0) here
    assert trace' + Releases(AfterClass(n, major)) == expected;
    assert trace' + [Release(Region(devno', n))] + Releases(AfterRegion(n)) == expected by {
      SettleOne(trace', Region(devno', n), AfterRegion(n));
    }
    trace' := trace' + [Release(Region(devno', n))];
  }

  /**
   pchar_init for `devices` devices: on success returns 0 and the live driver
   after acquiring the whole plan; on failure returns the failing call's error
   after releasing, newest first, exactly what it had acquired.
   */
  method PcharInit(devices: nat, o: Oracle) returns (ret: int, drv: Driver, trace: seq<Event<Resource>>)
    ensures ret == InitOutcome(devices, o).ret
    ensures trace == InitTrace(devices, o)
    ensures ret == 0 ==> Live(drv) && drv.devices == devices && drv.major == o.regionMajor
  {
    var n: nat := devices;
    ghost var expected := InitTrace(n, o);
    var i: int := 0;
    var devno := MkDev(0, 0);  // not yet assigned: alloc_chrdev_region writes it
    var pdevs: seq<PcharDevice> := [];
    var t: seq<Event<Resource>>;
    drv := Driver(n, 0, []);
    trace := [];

    label devicesKmallocFailed: {
    label kfifoAllocFailed: {
      // kmalloc of the device table
      if !o.kmallocOk {
        ret := -ENOMEM;
        TableFailure(n, o);
        break devicesKmallocFailed;
      }
      pdevs := seq(n, _ => PcharDevice(0, MkDev(0, 0)));
      trace := [Acquire(Table)];

      // kfifo_alloc for every device
      var k: nat;
      ret, k, pdevs, t := AllocFifos(n, o, pdevs);
      i := k;
      assert trace + t == Acquires([Table] + Fifos(k)) by {
        Extend(trace, [Table], t, Fifos(k));
      }
      trace := trace + t;
      if ret != 0 {
        assert ret == InitOutcome(n, o).ret && trace + Releases(FifosDown(k) + [Table]) == expected by {
          KfifoFailure(n, o, k);
        }
        break kfifoAllocFailed;
      }

      var major;
      ret, major, i, devno, pdevs, trace := RegisterDevices(n, o, i, devno, pdevs, trace);
      if ret == 0 {
        drv := Driver(n, major, pdevs);
        return;
      }
      // alloc_chrdev_region_failed
      i := n;
    }
    // kfifo_alloc_failed: free buffers i-1 down to 0, then the table
    ghost var buffers: nat := i;
    assert trace + Releases(FifosDown(buffers) + [Table]) == expected;
    i, t := FreeFifos(i);
    assert (trace + t) + Releases([Table]) == expected by {
      Settle(trace, t, FifosDown(buffers), [Table]);
    }
    trace := trace + t;
    assert trace + [Release(Table)] == expected by {
      assert Releases([Table]) == [Release(Table)];
    }
    trace := trace + [Release(Table)];
    }
    // devices_kmalloc_failed
  }

  /**
   pchar_exit on a loaded module: releases every resource exactly once, in
   the exact reverse of the order bring-up acquired them.
   */
  method PcharExit(drv: Driver) returns (trace: seq<Event<Resource>>)
    requires Live(drv)
    ensures trace == Releases(Reverse(Plan(drv.devices, drv.major)))
    ensures Replay(Plan(drv.devices, drv.major), trace) == Some([])
  {
    var n := drv.devices;
    var major := drv.major;
    var i, t1 := DeleteCdevs(n, major, drv.pdevs);
    var devno, t2;
    i, devno, t2 := DestroyDeviceFiles(n, major, MkDev(major, 0));
    var t3;
    i, t3 := FreeFifos(n);
    trace := t1 + t2 + [Release(Class), Release(Region(MkDev(major, 0), n))] + t3 + [Release(Table)];
    TeardownOrder(n, major);
    ReleasesAppend(CdevsDown(major, n), DeviceFilesDown(major, n));
    ReleasesAppend(CdevsDown(major, n) + DeviceFilesDown(major, n), [Class, Region(MkDev(major, 0), n)]);
    ReleasesAppend(CdevsDown(major, n) + DeviceFilesDown(major, n) + [Class, Region(MkDev(major, 0), n)], FifosDown(n));
    ReleasesAppend(CdevsDown(major, n) + DeviceFilesDown(major, n) + [Class, Region(MkDev(major, 0), n)] + FifosDown(n), [Table]);
    TeardownBalanced(n, major);
  }
}
